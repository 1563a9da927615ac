/**
 * The data the executor works on: scalar values as the driver hands them over,
 * field descriptors, the per-model metadata and model instances.
 */
module Models {
  import opened Wrappers

  /** A naive `datetime.datetime` (no time zone), field by field. */
  datatype DateTime = DateTime(year: nat, month: nat, day: nat,
                               hour: nat, minute: nat, second: nat, microsecond: nat)

  /**
   * A scalar attribute or column value. `Dec(coef, exp)` is the decimal
   * `coef * 10^exp`, as Python's `Decimal` stores it.
   */
  datatype Value =
    | Null
    | Bool(b: bool)
    | Int(i: int)
    | Str(s: string)
    | Dec(coef: int, exp: int)
    | Time(dt: DateTime)

  /** Python truthiness of a value: `None`, `False`, `0`, `""` and a zero decimal are false. */
  predicate Truthy(v: Value)
  {
    match v
    case Null => false
    case Bool(b) => b
    case Int(i) => i != 0
    case Str(s) => s != ""
    case Dec(c, _) => c != 0
    case Time(_) => true
  }

  /** An attribute lookup; an attribute the object does not carry reads as `None`. */
  function Get(m: map<string, Value>, k: string): Value
  {
    if k in m then m[k] else Null
  }

  /** The field classes the backends tell apart; every other class is `OtherField`. */
  datatype FieldKind =
    | BooleanField
    | DecimalField(decimalPlaces: nat)
    | DatetimeField(autoNow: bool, autoNowAdd: bool)
    | OtherField(className: string)

  /** A field descriptor: its `model_field_name`, its class and whether the database generates it. */
  datatype Field = Field(name: string, kind: FieldKind, generated: bool)

  /** How a relation field is joined, decided by the descriptor's class. */
  datatype RelationKind = DirectRelation | ReverseRelation(relationField: string) | ManyToManyRelation

  /**
   * A model's metadata: the table, the ordered mapping from field name to
   * column (`fields_db_projection`), the field descriptors (`fields_map`), the
   * names that may be prefetched (`fetch_fields`) and the relation kind of each
   * relation attribute.
   */
  datatype ModelMeta = ModelMeta(
    table: string,
    fieldsDbProjection: seq<(string, string)>,
    fieldsMap: map<string, Field>,
    fetchFields: set<string>,
    relations: map<string, RelationKind>)
  {
    /** What the model-definition layer guarantees: projection keys are distinct declared fields, each named as it is keyed. */
    ghost predicate WellFormed()
    {
      && (forall i, j :: 0 <= i < j < |fieldsDbProjection| ==> fieldsDbProjection[i].0 != fieldsDbProjection[j].0)
      && (forall i :: 0 <= i < |fieldsDbProjection| ==> fieldsDbProjection[i].0 in fieldsMap)
      && (forall n :: n in fieldsMap ==> fieldsMap[n].name == n)
    }
  }

  /**
   * The result of serialising one attribute for the database: the value to
   * bind (or the exception raised) and the value, if any, written back to the
   * instance's attribute.
   */
  datatype Coerced<E> = Coerced(out: Result<Value, E>, writeBack: Option<Value>)

  /** The attribute map after an optional write-back to attribute `name`. */
  function WriteBack(m: map<string, Value>, name: string, wb: Option<Value>): map<string, Value>
  {
    if wb.Some? then m[name := wb.value] else m
  }

  /** A related object as the related query returns it. */
  datatype Record = Record(values: map<string, Value>)
  {
    function Id(): Value { Get(values, "id") }
  }

  /** What prefetching attaches to a relation attribute: one object or `None`, or a list. */
  datatype Attachment = Single(obj: Option<Record>) | Many(items: seq<Record>)

  /** A model instance: its attributes and the relation attributes prefetching filled in. */
  class Instance {
    var values: map<string, Value>
    var attached: map<string, Attachment>

    constructor (values: map<string, Value>)
      ensures this.values == values && attached == map[]
    {
      this.values := values;
      attached := map[];
    }

    function Id(): Value
      reads this
    {
      Get(values, "id")
    }
  }

  /** The attribute maps of a list of instances, in list order. */
  function ValuesOf(insts: seq<Instance>): (vs: seq<map<string, Value>>)
    reads insts
    ensures |vs| == |insts|
    ensures forall k :: 0 <= k < |insts| ==> vs[k] == insts[k].values
  {
    seq(|insts|, k reads insts requires 0 <= k < |insts| => insts[k].values)
  }

  /** The relation attachments of a list of instances, in list order. */
  function AttachedOf(insts: seq<Instance>): (as_: seq<map<string, Attachment>>)
    reads insts
    ensures |as_| == |insts|
    ensures forall k :: 0 <= k < |insts| ==> as_[k] == insts[k].attached
  {
    seq(|insts|, k reads insts requires 0 <= k < |insts| => insts[k].attached)
  }

  /** The attachment currently on relation attribute `f`, if any. */
  function AttachedAt(m: map<string, Attachment>, f: string): Option<Attachment>
  {
    if f in m then Some(m[f]) else None
  }
}
