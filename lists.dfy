/**
 * The list updates the components apply to their state arrays, keyed by one property:
 * `list.map(x => x[key] === id ? v : x)`, `list.filter(x => x[key] !== id)` and
 * `list.some(x => x[key] === id)`. Strict equality is modelled as equality of values.
 */
module Lists {
  import opened JsValue

  /** `x[key] === id`. */
  predicate KeyIs(x: Value, key: string, id: Value) {
    Get(x, key) == id
  }

  /** `list.map(x => x[key] === id ? v : x)`. */
  function ReplaceWhere(list: seq<Value>, key: string, id: Value, v: Value): (r: seq<Value>)
    ensures |r| == |list|
    ensures forall i | 0 <= i < |list| :: r[i] == (if KeyIs(list[i], key, id) then v else list[i])
  {
    if list == [] then []
    else ReplaceWhere(list[..|list| - 1], key, id, v)
         + [if KeyIs(list[|list| - 1], key, id) then v else list[|list| - 1]]
  }

  /** `list.filter(x => x[key] !== id)`. */
  function RemoveWhere(list: seq<Value>, key: string, id: Value): (r: seq<Value>)
    ensures |r| <= |list|
  {
    if list == [] then []
    else if KeyIs(list[0], key, id) then RemoveWhere(list[1..], key, id)
    else [list[0]] + RemoveWhere(list[1..], key, id)
  }

  /** `[...s]` of a string: one one-character string per character, in order. */
  function SpreadString(s: string): (r: seq<Value>)
    ensures |r| == |s|
    ensures forall i | 0 <= i < |s| :: r[i] == Str([s[i]])
  {
    if s == [] then [] else [Str([s[0]])] + SpreadString(s[1..])
  }

  /** `list.some(x => x[key] === id)`. */
  predicate AnyWhere(list: seq<Value>, key: string, id: Value) {
    exists i | 0 <= i < |list| :: KeyIs(list[i], key, id)
  }

  /** How many entries have `x[key] === id`. */
  function CountWhere(list: seq<Value>, key: string, id: Value): (n: nat)
    ensures n <= |list|
  {
    if list == [] then 0
    else (if KeyIs(list[0], key, id) then 1 else 0) + CountWhere(list[1..], key, id)
  }

  /** Filtering distributes over concatenation, so the kept entries stay in their order. */
  lemma {:induction false} RemoveWhereAppend(a: seq<Value>, b: seq<Value>, key: string, id: Value)
    ensures RemoveWhere(a + b, key, id) == RemoveWhere(a, key, id) + RemoveWhere(b, key, id)
  {
    if a != [] {
      assert (a + b)[1..] == a[1..] + b;
      RemoveWhereAppend(a[1..], b, key, id);
    } else {
      assert a + b == b;
    }
  }

  /** A list with no matching entry is left exactly as it was. */
  lemma {:induction false} RemoveWhereNoMatch(list: seq<Value>, key: string, id: Value)
    requires !AnyWhere(list, key, id)
    ensures RemoveWhere(list, key, id) == list
  {
    if list != [] {
      assert !KeyIs(list[0], key, id);
      if AnyWhere(list[1..], key, id) {
        AnyWhereTail(list, key, id);
      }
      RemoveWhereNoMatch(list[1..], key, id);
      assert RemoveWhere(list, key, id) == [list[0]] + RemoveWhere(list[1..], key, id);
      assert [list[0]] + list[1..] == list;
    }
  }

  /** A match in the tail is a match in the list. */
  lemma AnyWhereTail(list: seq<Value>, key: string, id: Value)
    requires list != [] && AnyWhere(list[1..], key, id)
    ensures AnyWhere(list, key, id)
  {
    var i :| 0 <= i < |list[1..]| && KeyIs(list[1..][i], key, id);
    assert list[1..][i] == list[i + 1];
  }

  /** Exactly the matching entries are dropped: the kept ones plus the dropped ones make up the list. */
  lemma {:induction false} RemoveWhereCount(list: seq<Value>, key: string, id: Value)
    ensures |RemoveWhere(list, key, id)| + CountWhere(list, key, id) == |list|
  {
    if list != [] {
      RemoveWhereCount(list[1..], key, id);
    }
  }

  /** After filtering out an id, no entry with that id is left. */
  lemma RemoveWhereLeavesNone(list: seq<Value>, key: string, id: Value)
    ensures !AnyWhere(RemoveWhere(list, key, id), key, id)
  {
    var r := RemoveWhere(list, key, id);
    RemoveWhereMembers(list, key, id);
    forall i | 0 <= i < |r| ensures !KeyIs(r[i], key, id) {
      assert r[i] in r;
    }
  }

  /** The filter keeps exactly the entries whose key does not match. */
  lemma {:induction false} RemoveWhereMembers(list: seq<Value>, key: string, id: Value)
    ensures forall x :: x in RemoveWhere(list, key, id) <==> x in list && !KeyIs(x, key, id)
  {
    if list != [] {
      RemoveWhereMembers(list[1..], key, id);
      assert list == [list[0]] + list[1..];
    }
  }

  /** AnyWhere holds exactly when some entry is counted. */
  lemma {:induction false} AnyWhereIffCount(list: seq<Value>, key: string, id: Value)
    ensures AnyWhere(list, key, id) <==> CountWhere(list, key, id) > 0
  {
    if list != [] {
      AnyWhereIffCount(list[1..], key, id);
      if AnyWhere(list, key, id) && !KeyIs(list[0], key, id) {
        var i :| 0 <= i < |list| && KeyIs(list[i], key, id);
        assert KeyIs(list[1..][i - 1], key, id);
      }
      if AnyWhere(list[1..], key, id) {
        var i :| 0 <= i < |list[1..]| && KeyIs(list[1..][i], key, id);
        assert KeyIs(list[i + 1], key, id);
      }
    }
  }

  /** Replacing by an id no entry carries leaves the list as it was. */
  lemma ReplaceWhereNoMatch(list: seq<Value>, key: string, id: Value, v: Value)
    requires !AnyWhere(list, key, id)
    ensures ReplaceWhere(list, key, id, v) == list
  {
  }
}
