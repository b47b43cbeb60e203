/**
 * Plain JavaScript objects as JSON.stringify sees them: an ordered list of
 * (key, value) properties, with property definition (`{..., k: v}`) and
 * object spread (`{...o, ...s}`) as the two ways of building one.
 */
module Objects {
  import opened Wrappers

  /** The JSON-representable values a log record can hold. */
  datatype Json =
    | JNull
    | JBool(b: bool)
    | JNum(n: int)
    | JStr(s: string)
    | JArr(items: seq<Json>)
    | JObj(fields: seq<(string, Json)>)

  /** An object's own string-keyed properties, in insertion order. */
  type Obj = seq<(string, Json)>

  /** The object's keys, in order (`Object.keys`). */
  function Keys(o: Obj): seq<string>
  {
    seq(|o|, i requires 0 <= i < |o| => o[i].0)
  }

  /** A well-formed object: no key occurs twice. */
  predicate UniqueKeys(o: Obj)
  {
    forall i, j :: 0 <= i < j < |o| ==> o[i].0 != o[j].0
  }

  /** Property access `o[k]`, None for a missing key. */
  function Lookup(o: Obj, k: string): (r: Option<Json>)
    ensures r.None? <==> k !in Keys(o)
  {
    if o == [] then None
    else if o[0].0 == k then
      assert Keys(o)[0] == k;
      Some(o[0].1)
    else
      assert Keys(o) == [o[0].0] + Keys(o[1..]);
      Lookup(o[1..], k)
  }

  /**
   * Property definition `o[k] = v`: a key already present keeps its
   * position and takes the new value; a new key is added last.
   */
  function Put(o: Obj, k: string, v: Json): Obj
  {
    if o == [] then [(k, v)]
    else if o[0].0 == k then [(k, v)] + o[1..]
    else [o[0]] + Put(o[1..], k, v)
  }

  /** `o[k] = v` leaves an existing key where it is and adds a new key last. */
  lemma {:induction false} PutKeys(o: Obj, k: string, v: Json)
    ensures Keys(Put(o, k, v)) == if k in Keys(o) then Keys(o) else Keys(o) + [k]
  {
    if o == [] {
    } else if o[0].0 == k {
      assert Keys(o)[0] == k;
      assert Keys([(k, v)] + o[1..]) == Keys(o);
    } else {
      PutKeys(o[1..], k, v);
      var r := [o[0]] + Put(o[1..], k, v);
      assert Keys(o) == [o[0].0] + Keys(o[1..]);
      assert Keys(r) == [o[0].0] + Keys(Put(o[1..], k, v));
    }
  }

  /** After `o[k] = v`, k reads as v and every other key reads as before. */
  lemma {:induction false} PutLookup(o: Obj, k: string, v: Json, j: string)
    ensures Lookup(Put(o, k, v), j) == if j == k then Some(v) else Lookup(o, j)
  {
    if o != [] && o[0].0 != k {
      PutLookup(o[1..], k, v, j);
      assert ([o[0]] + Put(o[1..], k, v))[1..] == Put(o[1..], k, v);
    }
  }

  /** Object spread `{...o, ...s}`: the properties of s are defined on o one by one, left to right. */
  function Spread(o: Obj, s: Obj): Obj
    decreases |s|
  {
    if s == [] then o else Spread(Put(o, s[0].0, s[0].1), s[1..])
  }

  /** In a well-formed object, looking a key up finds the property that holds it. */
  lemma {:induction false} LookupAt(o: Obj, i: nat)
    requires UniqueKeys(o) && i < |o|
    ensures Lookup(o, o[i].0) == Some(o[i].1)
  {
    if i > 0 {
      assert UniqueKeys(o[1..]);
      LookupAt(o[1..], i - 1);
    }
  }

  /** Defining a property, on a new key or an existing one, keeps the object well formed. */
  lemma PutUnique(o: Obj, k: string, v: Json)
    requires UniqueKeys(o)
    ensures UniqueKeys(Put(o, k, v))
  {
    var r := Put(o, k, v);
    PutKeys(o, k, v);
    forall i, j | 0 <= i < j < |r| ensures r[i].0 != r[j].0 {
      assert Keys(r)[i] == r[i].0 && Keys(r)[j] == r[j].0;
    }
  }

  /**
   * Spreading never moves a key: the keys of o stay a prefix of the result,
   * every other key comes from s, and the result is well formed when o is.
   */
  lemma {:induction false} SpreadKeys(o: Obj, s: Obj)
    requires UniqueKeys(o)
    ensures Keys(o) <= Keys(Spread(o, s))
    ensures forall k :: k in Keys(Spread(o, s)) <==> k in Keys(o) || k in Keys(s)
    ensures UniqueKeys(Spread(o, s))
    decreases |s|
  {
    if s != [] {
      var o' := Put(o, s[0].0, s[0].1);
      PutUnique(o, s[0].0, s[0].1);
      PutKeys(o, s[0].0, s[0].1);
      SpreadKeys(o', s[1..]);
      assert Keys(s) == [s[0].0] + Keys(s[1..]);
    }
  }

  /** After a spread, a key of s holds s's value (the later source wins), any other key keeps o's. */
  lemma {:induction false} SpreadLookup(o: Obj, s: Obj, k: string)
    requires UniqueKeys(s)
    ensures Lookup(Spread(o, s), k) == if k in Keys(s) then Lookup(s, k) else Lookup(o, k)
    decreases |s|
  {
    if s != [] {
      assert Keys(s) == [s[0].0] + Keys(s[1..]);
      assert UniqueKeys(s[1..]);
      SpreadLookup(Put(o, s[0].0, s[0].1), s[1..], k);
      PutLookup(o, s[0].0, s[0].1, k);
    }
  }

  /**
   * On a key collision the value is the later source's and the key stays
   * where o first put it.
   */
  lemma SpreadCollision(o: Obj, s: Obj, i: nat)
    requires UniqueKeys(o) && UniqueKeys(s)
    requires i < |o| && o[i].0 in Keys(s)
    ensures i < |Spread(o, s)|
    ensures Spread(o, s)[i] == (o[i].0, Lookup(s, o[i].0).value)
  {
    var r := Spread(o, s);
    SpreadKeys(o, s);
    assert Keys(o)[i] == Keys(r)[i];
    LookupAt(r, i);
    SpreadLookup(o, s, o[i].0);
  }

  /** Defining a new key appends it. */
  lemma {:induction false} PutFresh(o: Obj, k: string, v: Json)
    requires k !in Keys(o)
    ensures Put(o, k, v) == o + [(k, v)]
  {
    if o != [] {
      assert Keys(o) == [o[0].0] + Keys(o[1..]);
      PutFresh(o[1..], k, v);
      assert [o[0]] + (o[1..] + [(k, v)]) == o + [(k, v)];
    }
  }

  /** Spreading a well-formed object whose keys o does not have yet is concatenation. */
  lemma {:induction false} SpreadDisjoint(o: Obj, s: Obj)
    requires UniqueKeys(s)
    requires forall k :: k in Keys(s) ==> k !in Keys(o)
    ensures Spread(o, s) == o + s
    decreases |s|
  {
    if s != [] {
      assert Keys(s) == [s[0].0] + Keys(s[1..]);
      PutFresh(o, s[0].0, s[0].1);
      var o' := o + [s[0]];
      assert Keys(o') == Keys(o) + [s[0].0];
      assert UniqueKeys(s[1..]);
      forall k | k in Keys(s[1..]) ensures k !in Keys(o') {
        var j :| 0 <= j < |s[1..]| && Keys(s[1..])[j] == k;
        assert s[j + 1].0 == k;
      }
      SpreadDisjoint(o', s[1..]);
      assert o' + s[1..] == o + s;
    }
  }
}
