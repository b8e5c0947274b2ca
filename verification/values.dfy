/** JSON-like values and records as the handlers see them once a body is parsed.
    A record is an ordered list of fields: the order is the order `Object.keys`
    reports, with new properties appended at the end. */
module Values {
  import opened Wrappers

  /** A field value. `Composite` stands for arrays and objects: always truthy,
      and `text` is what a template literal turns it into (`String(value)`). */
  datatype Value =
    | Str(s: string)
    | Num(n: int)
    | Bool(b: bool)
    | Null
    | Undefined
    | Composite(text: string)

  datatype Field = Field(key: string, value: Value)

  type Record = seq<Field>

  /** JavaScript truthiness (`if (x)`, `!x`, `a || b`). */
  predicate Truthy(v: Value) {
    match v
    case Str(s) => s != ""
    case Num(n) => n != 0
    case Bool(b) => b
    case Null => false
    case Undefined => false
    case Composite(_) => true
  }

  /** JavaScript `a || b`: the first operand when truthy, else the second. */
  function Or(a: Value, b: Value): Value {
    if Truthy(a) then a else b
  }

  /** The keys of a record, in order. */
  function Keys(rec: Record): (ks: seq<string>)
    ensures |ks| == |rec|
  {
    if |rec| == 0 then [] else [rec[0].key] + Keys(rec[1..])
  }

  lemma {:induction false} KeysAt(rec: Record)
    ensures forall i :: 0 <= i < |rec| ==> Keys(rec)[i] == rec[i].key
  {
    if |rec| > 0 {
      KeysAt(rec[1..]);
    }
  }

  /** A JavaScript object never holds the same key twice. */
  predicate WellFormed(rec: Record) {
    forall i, j :: 0 <= i < j < |rec| ==> rec[i].key != rec[j].key
  }

  /** Property read `rec[k]`: a missing key reads as `undefined`. */
  function Lookup(rec: Record, k: string): (v: Value)
    ensures k !in Keys(rec) ==> v == Undefined
    ensures k in Keys(rec) ==> Field(k, v) in rec
  {
    if |rec| == 0 then Undefined
    else if rec[0].key == k then rec[0].value
    else Lookup(rec[1..], k)
  }

  /** Property write `rec[k] = v`: an existing key keeps its position and
      takes the new value; a new key is appended at the end. */
  function Assign(rec: Record, k: string, v: Value): (r: Record)
    ensures Lookup(r, k) == v
    ensures k in Keys(rec) ==> Keys(r) == Keys(rec)
    ensures k !in Keys(rec) ==> Keys(r) == Keys(rec) + [k]
  {
    if |rec| == 0 then [Field(k, v)]
    else if rec[0].key == k then
      var r := [Field(k, v)] + rec[1..];
      assert r[1..] == rec[1..];
      r
    else
      var tail := Assign(rec[1..], k, v);
      var r := [rec[0]] + tail;
      assert r[1..] == tail;
      r
  }

  /** Writing one key leaves every other key reading as before. */
  lemma {:induction false} AssignFrame(rec: Record, k: string, v: Value, k': string)
    requires k' != k
    ensures Lookup(Assign(rec, k, v), k') == Lookup(rec, k')
  {
    if |rec| > 0 && rec[0].key != k {
      AssignFrame(rec[1..], k, v, k');
      assert ([rec[0]] + Assign(rec[1..], k, v))[1..] == Assign(rec[1..], k, v);
    } else if |rec| > 0 {
      assert ([Field(k, v)] + rec[1..])[1..] == rec[1..];
    }
  }

  /** A write adds at most one field and drops no key. */
  lemma AssignExtendsKeys(rec: Record, k: string, v: Value)
    ensures var r := Assign(rec, k, v);
      |rec| <= |r| <= |rec| + 1 && Keys(rec) <= Keys(r)
  {
  }

  /** After a write, the keys are the old keys and the written one. */
  lemma AssignKeySet(rec: Record, k: string, v: Value, k': string)
    ensures k' in Keys(Assign(rec, k, v)) <==> k' in Keys(rec) || k' == k
  {
  }

  /** Writing a key never produces a duplicate key. */
  lemma AssignWellFormed(rec: Record, k: string, v: Value)
    requires WellFormed(rec)
    ensures WellFormed(Assign(rec, k, v))
  {
    var r := Assign(rec, k, v);
    var ks := Keys(rec);
    var rs := Keys(r);
    KeysAt(rec);
    KeysAt(r);
    forall i, j | 0 <= i < j < |r|
      ensures r[i].key != r[j].key
    {
      assert rs[i] == r[i].key && rs[j] == r[j].key;
      if k !in ks {
        if j < |rec| {
          assert rs[i] == ks[i] && rs[j] == ks[j];
        } else {
          assert rs[j] == k;
          assert rs[i] == ks[i];
        }
      } else {
        assert rs[i] == ks[i] && rs[j] == ks[j];
      }
    }
  }

  /** A JSON parser applied to a request body: `None` when it throws. An
      object it decodes never repeats a key. */
  type JsonParser = parse: string -> Option<Record> | forall s :: parse(s).Some? ==> WellFormed(parse(s).value)
    witness (s: string) => None

  /** `JSON.parse(body || '{}')`: a missing or empty body is parsed as `{}`.
      The parser itself is a parameter. */
  function ParseBody(body: Option<string>, parse: JsonParser): (r: Option<Record>)
    ensures r.Some? ==> WellFormed(r.value)
    ensures IsSet(body) ==> r == parse(body.value)
    ensures !IsSet(body) ==> r == parse("{}")
  {
    if IsSet(body) then parse(body.value) else parse("{}")
  }

  /** What any JSON parser does with the text `{}`. */
  predicate ParsesEmptyObject(parse: JsonParser) {
    parse("{}") == Some([])
  }

  lemma EmptyBodyIsEmptyRecord(body: Option<string>, parse: JsonParser)
    requires ParsesEmptyObject(parse)
    requires !IsSet(body)
    ensures ParseBody(body, parse) == Some([])
  {
  }
}
