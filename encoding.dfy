/** How an options struct becomes request parameters. Both encoders the facade relies on --
    the query-string encoder used on the single-call path and the JSON encoder used on the bulk
    path -- walk the tagged fields of the struct in declaration order and drop a field whose tag
    says `omitempty` when its value is the zero value of its type. This module models that walk
    over an explicit list of tagged fields; key order, escaping and the byte-level text are not
    modelled. */
module Encoding {
  import opened Results

  /** A Go `float64`. Only the distinction that matters here is kept: NaN and the two
      infinities (which encoding/json refuses) are collapsed into `NonFinite`. */
  datatype Float = Finite(value: real) | NonFinite

  /** The scalar kinds that occur in the options structs. */
  datatype Value = IntV(i: int) | StrV(s: string) | FloatV(f: Float)

  /** Go's "empty value" test used by `omitempty` for these kinds: 0, "" and 0.0
      (`-0.0` is the same real number, so it is zero too; NaN is not zero). */
  predicate IsZero(v: Value): (z: bool)
    ensures z <==> v in {IntV(0), StrV(""), FloatV(Finite(0.0))}
  {
    match v
    case IntV(i) => i == 0
    case StrV(s) => s == ""
    case FloatV(f) => f == Finite(0.0)
  }

  /** One struct field: the name in its tag, its current value, and whether the tag says `omitempty`. */
  datatype Field = Field(name: string, value: Value, omitEmpty: bool)

  /** A field is written unless its tag says `omitempty` and it holds the zero value. */
  predicate Emitted(f: Field): (e: bool)
    ensures !f.omitEmpty ==> e
    ensures f.omitEmpty ==> (e <==> !IsZero(f.value))
  {
    !(f.omitEmpty && IsZero(f.value))
  }

  /** encoding/json rejects NaN and infinite floats with an error; everything else here encodes. */
  predicate Encodable(f: Field) {
    !(f.value.FloatV? && f.value.f.NonFinite?)
  }

  /** An encoded parameter set or JSON object, as key/value pairs. */
  type Object = map<string, Value>

  /** Keys the facade adds on top of the struct's own fields: `request` on the query-string path,
      `requestName` and `requestID` on the bulk path. */
  const ReservedNames: set<string> := {"request", "requestName", "requestID"}

  /** No two fields share a tag name. */
  predicate DistinctNames(fs: seq<Field>) {
    forall i, j :: 0 <= i < j < |fs| ==> fs[i].name != fs[j].name
  }

  /** No field uses a key the facade adds itself. */
  predicate NoReservedNames(fs: seq<Field>) {
    forall i :: 0 <= i < |fs| ==> fs[i].name !in ReservedNames
  }

  /** What every options struct of the facade satisfies: distinct tag names, none of them reserved. */
  predicate WellFormed(fs: seq<Field>) {
    DistinctNames(fs) && NoReservedNames(fs)
  }

  /** Distinct names, restated over members: a name determines the field. */
  lemma DistinctNamesDetermineField(fs: seq<Field>)
    requires DistinctNames(fs)
    ensures forall f, g :: f in fs && g in fs && f.name == g.name ==> f == g
  {
    forall f, g | f in fs && g in fs && f.name == g.name
      ensures f == g
    {
      var i :| 0 <= i < |fs| && fs[i] == f;
      var j :| 0 <= j < |fs| && fs[j] == g;
      assert !(i < j) && !(j < i);
    }
  }

  /** The fields' key/value pairs with the omitted ones dropped (the query-string encoder). */
  function Encode(fs: seq<Field>): (m: Object)
    ensures |m| <= |fs|
  {
    if fs == [] then map[]
    else
      var rest := Encode(fs[1..]);
      if Emitted(fs[0]) then rest[fs[0].name := fs[0].value] else rest
  }

  /** Every emitted field's name is a key, and every key comes from an emitted field and holds
      that field's value (with repeated names, the first such field wins). */
  lemma {:induction false} EncodeSound(fs: seq<Field>)
    ensures forall f :: f in fs && Emitted(f) ==> f.name in Encode(fs)
    ensures forall k :: k in Encode(fs) ==> exists f :: f in fs && Emitted(f) && f.name == k && Encode(fs)[k] == f.value
  {
    if fs != [] {
      EncodeSound(fs[1..]);
      assert forall f :: f in fs ==> f == fs[0] || f in fs[1..];
      assert forall f :: f in fs[1..] ==> f in fs;
    }
  }

  /** With distinct names the encoding is exact: a field is present if and only if it is
      emitted, and then with its own value. */
  lemma EncodeExact(fs: seq<Field>)
    requires DistinctNames(fs)
    ensures forall f :: f in fs ==> (f.name in Encode(fs) <==> Emitted(f))
    ensures forall f :: f in fs && Emitted(f) ==> Encode(fs)[f.name] == f.value
    ensures forall k :: k in Encode(fs) ==> k in (set f | f in fs :: f.name)
  {
    EncodeSound(fs);
    DistinctNamesDetermineField(fs);
  }

  /** The single-call query string: the struct's fields plus the fixed `request=<operation>` entry. */
  function Query(fs: seq<Field>, operation: string): (q: Object)
    ensures "request" in q && q["request"] == StrV(operation)
  {
    Encode(fs)["request" := StrV(operation)]
  }

  /** For a well-formed struct the query string holds exactly the emitted fields, with their
      values, and the `request` entry. */
  lemma QueryExact(fs: seq<Field>, operation: string)
    requires WellFormed(fs)
    ensures forall f :: f in fs ==> (f.name in Query(fs, operation) <==> Emitted(f))
    ensures forall f :: f in fs && Emitted(f) ==> Query(fs, operation)[f.name] == f.value
    ensures forall k :: k in Query(fs, operation) && k != "request" ==>
              exists f :: f in fs && Emitted(f) && f.name == k && Query(fs, operation)[k] == f.value
  {
    EncodeExact(fs);
  }

  /** When every tag says `omitempty`, no zero value is ever sent. */
  lemma QueryHasNoZeros(fs: seq<Field>, operation: string)
    requires WellFormed(fs)
    requires forall f :: f in fs ==> f.omitEmpty
    ensures forall k :: k in Query(fs, operation) && k != "request" ==> !IsZero(Query(fs, operation)[k])
  {
    QueryExact(fs, operation);
  }

  /** Only a float can make the JSON encoder fail. */
  lemma NoFloatsEncodable(fs: seq<Field>)
    requires forall i :: 0 <= i < |fs| ==> !fs[i].value.FloatV?
    ensures forall f :: f in fs ==> Encodable(f)
  {
  }

  /** The JSON object encoder: field by field, failing on the first value it cannot encode.
      On success it produces the very same key/value pairs as the query-string encoder. */
  function MarshalObject(fs: seq<Field>): (r: Result<Object>)
    ensures r.Ok? <==> forall f :: f in fs ==> Encodable(f)
    ensures r.Ok? ==> r.value == Encode(fs)
    ensures r.Err? ==> r.error == UnsupportedValue
  {
    if fs == [] then Ok(map[])
    else if !Encodable(fs[0]) then Err(UnsupportedValue)
    else
      match MarshalObject(fs[1..])
      case Err(e) => Err(e)
      case Ok(rest) => Ok(if Emitted(fs[0]) then rest[fs[0].name := fs[0].value] else rest)
  }

  /** The bulk-path object: the struct's fields followed by the fixed stamps the facade's
      `MarshalJSON` adds. Away from the reserved keys it holds exactly what the query string
      holds, and each stamp is present with its own value. */
  lemma StampedAgreesWithQuery(fs: seq<Field>, stamps: seq<Field>, operation: string)
    requires WellFormed(fs) && DistinctNames(stamps)
    requires forall s :: s in stamps ==> s.name in ReservedNames && s.name != "request" && !s.omitEmpty && Encodable(s)
    ensures MarshalObject(fs + stamps).Ok? <==> MarshalObject(fs).Ok?
    ensures MarshalObject(fs + stamps).Ok? ==> "request" !in MarshalObject(fs + stamps).value
    ensures MarshalObject(fs + stamps).Ok? ==>
              forall k :: k in ReservedNames && k in MarshalObject(fs + stamps).value ==>
                exists s :: s in stamps && s.name == k
    ensures MarshalObject(fs + stamps).Ok? ==>
              (forall s :: s in stamps ==> s.name in MarshalObject(fs + stamps).value
                                           && MarshalObject(fs + stamps).value[s.name] == s.value)
    ensures MarshalObject(fs + stamps).Ok? ==>
              forall k :: k !in ReservedNames ==>
                (k in MarshalObject(fs + stamps).value <==> k in Query(fs, operation))
                && (k in Query(fs, operation) ==> MarshalObject(fs + stamps).value[k] == Query(fs, operation)[k])
  {
    var all := fs + stamps;
    assert forall f :: f in all <==> f in fs || f in stamps;
    assert DistinctNames(all);
    EncodeExact(all);
    EncodeExact(fs);
  }

  /** The bulk-path object of a struct stamped with `requestName` alone: it always encodes when its
      fields do, carries `requestName`, and has neither `requestID` nor `request`. */
  lemma NameStampedAgreesWithQuery(fs: seq<Field>, operation: string)
    requires WellFormed(fs) && forall f :: f in fs ==> Encodable(f)
    ensures var r := MarshalObject(fs + [Field("requestName", StrV(operation), false)]);
      && r.Ok?
      && "requestName" in r.value && r.value["requestName"] == StrV(operation)
      && "requestID" !in r.value && "request" !in r.value
      && forall k :: k !in ReservedNames ==>
           (k in r.value <==> k in Query(fs, operation))
           && (k in r.value ==> r.value[k] == Query(fs, operation)[k])
  {
    var stamps := [Field("requestName", StrV(operation), false)];
    StampedAgreesWithQuery(fs, stamps, operation);
    assert forall s :: s in stamps ==> s.name != "requestID";
  }

  /** A JSON array: every element marshalled in order; the first failure aborts the whole array. */
  function MarshalArray<O>(items: seq<O>, marshal: O -> Result<Object>): (r: Result<seq<Object>>)
    ensures r.Ok? <==> forall i :: 0 <= i < |items| ==> marshal(items[i]).Ok?
    ensures r.Ok? ==> |r.value| == |items| && forall i :: 0 <= i < |items| ==> r.value[i] == marshal(items[i]).value
    ensures r.Err? ==> exists i :: 0 <= i < |items| && marshal(items[i]).Err? && r.error == marshal(items[i]).error
                                   && forall j :: 0 <= j < i ==> marshal(items[j]).Ok?
  {
    if items == [] then Ok([])
    else
      match marshal(items[0])
      case Err(e) => Err(e)
      case Ok(first) =>
        match MarshalArray(items[1..], marshal)
        case Err(e) =>
          assert forall i :: 1 <= i < |items| ==> items[i] == items[1..][i - 1];
          Err(e)
        case Ok(rest) => Ok([first] + rest)
  }
}
