/** A JSON object as encoding/json writes a struct: an ordered list of
    key/value members. String escaping and quoting are not modelled; a value is
    the Go string the encoder is given. */
module JsonFields {

  datatype Option<T> = None | Some(value: T)

  datatype Field = Field(key: string, value: string)

  /** The value of the first member named `key`, if any. */
  function Lookup(fs: seq<Field>, key: string): (v: Option<string>)
    ensures v.Some? <==> exists i | 0 <= i < |fs| :: fs[i].key == key
    ensures v.Some? ==> exists i | 0 <= i < |fs| ::
              fs[i] == Field(key, v.value) && forall j | 0 <= j < i :: fs[j].key != key
  {
    if |fs| == 0 then None
    else if fs[0].key == key then Some(fs[0].value)
    else
      var v := Lookup(fs[1..], key);
      assert forall i | 0 <= i < |fs[1..]| :: fs[1..][i] == fs[i + 1];
      v
  }

  /** An `omitempty` string member: written only when its value is non-empty. */
  function OmitEmpty(key: string, value: string): (fs: seq<Field>)
    ensures |fs| <= 1
    ensures fs == [] <==> value == ""
    ensures forall i | 0 <= i < |fs| :: fs[i] == Field(key, value)
  {
    if value == "" then [] else [Field(key, value)]
  }

  /** Looking up in a concatenation finds the first part's member when it has one. */
  lemma {:induction false} LookupAppend(a: seq<Field>, b: seq<Field>, key: string)
    ensures Lookup(a + b, key) == if Lookup(a, key).Some? then Lookup(a, key) else Lookup(b, key)
  {
    if |a| > 0 {
      assert (a + b)[0] == a[0];
      assert (a + b)[1..] == a[1..] + b;
      LookupAppend(a[1..], b, key);
    } else {
      assert a + b == b;
    }
  }

  /** Appending an `omitempty` member: an earlier member of the same key still wins,
      otherwise the key is found iff it is the appended one and its value is non-empty. */
  lemma LookupAppendOmitEmpty(fs: seq<Field>, key: string, value: string, k: string)
    ensures Lookup(fs + OmitEmpty(key, value), k)
         == if Lookup(fs, k).Some? then Lookup(fs, k)
            else if k == key && value != "" then Some(value) else None
  {
    LookupAppend(fs, OmitEmpty(key, value), k);
  }

  /** The members' keys appear in strictly increasing `rank` (a struct's field order). */
  predicate Ordered(fs: seq<Field>, rank: string -> nat) {
    forall i, j | 0 <= i < j < |fs| :: rank(fs[i].key) < rank(fs[j].key)
  }

  /** Two ordered runs, the first ranked wholly below `bound` and the second wholly at or
      above it, concatenate to an ordered run. */
  lemma OrderedAppend(a: seq<Field>, b: seq<Field>, rank: string -> nat, bound: nat)
    requires Ordered(a, rank) && Ordered(b, rank)
    requires forall i | 0 <= i < |a| :: rank(a[i].key) < bound
    requires forall j | 0 <= j < |b| :: bound <= rank(b[j].key)
    ensures Ordered(a + b, rank)
  {
  }
}
