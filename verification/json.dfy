/** The shape of a parsed JSON document, as `JSON.parse` returns it. */
module Json {
  import opened Wrappers

  /** A JSON value; numbers are kept as integers, which is all the model needs of them. */
  datatype Value =
    | Null
    | Bool(b: bool)
    | Number(n: int)
    | Str(s: string)
    | Arr(items: seq<Value>)
    | Obj(fields: seq<(string, Value)>)

  /** The member `key` of an object's field list; a repeated key keeps its last value, as in `JSON.parse`. */
  function Lookup(fields: seq<(string, Value)>, key: string): (r: Option<Value>)
    ensures r.None? <==> forall i :: 0 <= i < |fields| ==> fields[i].0 != key
    ensures r.Some? ==> exists i :: 0 <= i < |fields| && fields[i] == (key, r.value)
  {
    if fields == [] then None
    else if fields[|fields| - 1].0 == key then Some(fields[|fields| - 1].1)
    else Lookup(fields[..|fields| - 1], key)
  }

  /** A repeated key reads as its last occurrence: the field at `i` wins over every earlier one. */
  lemma {:induction false} LookupLastWins(fields: seq<(string, Value)>, i: int)
    requires 0 <= i < |fields|
    requires forall j :: i < j < |fields| ==> fields[j].0 != fields[i].0
    ensures Lookup(fields, fields[i].0) == Some(fields[i].1)
  {
    if i < |fields| - 1 {
      var init := fields[..|fields| - 1];
      assert init[i] == fields[i];
      LookupLastWins(init, i);
    }
  }

  /** No two members of an object share a key. */
  predicate DistinctKeys(fields: seq<(string, Value)>)
  {
    forall i, j :: 0 <= i < j < |fields| ==> fields[i].0 != fields[j].0
  }

  /** In an object without repeated keys, looking up a member's key finds that member. */
  lemma LookupDistinct(fields: seq<(string, Value)>, i: int)
    requires DistinctKeys(fields)
    requires 0 <= i < |fields|
    ensures Lookup(fields, fields[i].0) == Some(fields[i].1)
  {
    LookupLastWins(fields, i);
  }

  /** A list of strings as a JSON array. */
  function FromStrings(xs: seq<string>): (v: Value)
    ensures v.Arr? && |v.items| == |xs|
    ensures forall i :: 0 <= i < |xs| ==> v.items[i] == Str(xs[i])
  {
    Arr(seq(|xs|, i requires 0 <= i < |xs| => Str(xs[i])))
  }

  /** Reads a JSON array of strings; any other element rejects the whole array. */
  function AsStrings(items: seq<Value>): (r: Option<seq<string>>)
    ensures r.Some? <==> forall i :: 0 <= i < |items| ==> items[i].Str?
    ensures r.Some? ==> |r.value| == |items|
    ensures r.Some? ==> forall i :: 0 <= i < |items| ==> r.value[i] == items[i].s
  {
    if items == [] then Some([])
    else if !items[0].Str? then None
    else match AsStrings(items[1..])
      case None => None
      case Some(rest) => Some([items[0].s] + rest)
  }

  /** Reading back an array of strings gives the same strings. */
  lemma {:induction false} AsStringsFromStrings(xs: seq<string>)
    ensures AsStrings(FromStrings(xs).items) == Some(xs)
  {
    if xs != [] {
      var items := FromStrings(xs).items;
      assert items[1..] == FromStrings(xs[1..]).items;
      AsStringsFromStrings(xs[1..]);
      assert AsStrings(items) == Some([xs[0]] + xs[1..]);
      assert [xs[0]] + xs[1..] == xs;
    }
  }
}
