/**
 * The `BTreeMap<u16, &'static str>` that `get_status_codes` fills
 * (src/main.rs:5-81), modelled abstractly as an ordered map with unique keys:
 * a sorted association list from status code to reason phrase. Its order is
 * the order in which the map is iterated (src/main.rs:93).
 */
module OrderedMap {
  import opened Decimal

  datatype Option<T> = None | Some(value: T)

  /** One key/value pair of the map: a status code and its reason phrase. */
  datatype Entry = Entry(code: U16, reason: string)

  /** Codes strictly increase along `s`: iteration order, and no code twice. */
  predicate Ascending(s: seq<Entry>) {
    forall i, j :: 0 <= i < j < |s| ==> s[i].code < s[j].code
  }

  /** The reason phrase stored under `code`, or None: the map view of `s`. */
  function Lookup(s: seq<Entry>, code: U16): Option<string> {
    if s == [] then None
    else if s[0].code == code then Some(s[0].reason)
    else Lookup(s[1..], code)
  }

  /** A lookup fails exactly when no pair has the code, and succeeds with a stored pair. */
  lemma {:induction false} LookupSpec(s: seq<Entry>, code: U16)
    ensures Lookup(s, code).None? <==> forall i :: 0 <= i < |s| ==> s[i].code != code
    ensures Lookup(s, code).Some? ==> exists i :: 0 <= i < |s| && s[i] == Entry(code, Lookup(s, code).value)
  {
    if s != [] && s[0].code != code {
      LookupSpec(s[1..], code);
      if Lookup(s, code).Some? {
        var i :| 0 <= i < |s[1..]| && s[1..][i] == Entry(code, Lookup(s, code).value);
        assert s[i + 1] == s[1..][i];
      }
    }
  }

  /** Looking up in a concatenation looks in the first part, then the second. */
  lemma {:induction false} LookupAppend(a: seq<Entry>, b: seq<Entry>, code: U16)
    ensures Lookup(a + b, code) == if Lookup(a, code).Some? then Lookup(a, code) else Lookup(b, code)
  {
    if a == [] {
      assert a + b == b;
    } else {
      assert (a + b)[1..] == a[1..] + b;
      LookupAppend(a[1..], b, code);
    }
  }

  /** Codes that increase between neighbours increase along the whole list. */
  lemma {:induction false} AscendingFromAdjacent(s: seq<Entry>)
    requires forall i :: 0 < i < |s| ==> s[i - 1].code < s[i].code
    ensures Ascending(s)
  {
    if |s| > 1 {
      AscendingFromAdjacent(s[1..]);
      forall j | 1 <= j < |s|
        ensures s[0].code < s[j].code
      {
        if j > 1 {
          assert s[1..][0].code < s[1..][j - 1].code;
        }
      }
    }
  }

  /** Two ascending runs, the first ending below where the second starts, join into one. */
  lemma AscendingAppend(a: seq<Entry>, b: seq<Entry>)
    requires Ascending(a) && Ascending(b)
    requires a != [] && b != [] ==> a[|a| - 1].code < b[0].code
    ensures Ascending(a + b)
  {
    forall i, j | 0 <= i < j < |a + b|
      ensures (a + b)[i].code < (a + b)[j].code
    {
      if i < |a| <= j {
        assert a[i].code <= a[|a| - 1].code;
        assert b[0].code <= b[j - |a|].code;
      }
    }
  }

  /** In a map with unique keys, every stored pair is what a lookup finds. */
  lemma {:induction false} LookupAt(s: seq<Entry>, i: nat)
    requires Ascending(s) && i < |s|
    ensures Lookup(s, s[i].code) == Some(s[i].reason)
  {
    if i > 0 {
      LookupAt(s[1..], i - 1);
    }
  }

  /** In a map with unique ascending keys, no pair's code occurs among the pairs before it. */
  lemma AscendingFreshKey(s: seq<Entry>, k: nat)
    requires Ascending(s) && k < |s|
    ensures Lookup(s[..k], s[k].code) == None
  {
    forall i | 0 <= i < k
      ensures s[..k][i].code != s[k].code
    {
      assert s[..k][i] == s[i];
    }
    LookupSpec(s[..k], s[k].code);
  }

  /**
   * The association list after `code` is bound to `reason`: the pair goes
   * before the first larger code, and replaces the value of an equal code.
   */
  function Inserted(s: seq<Entry>, code: U16, reason: string): (r: seq<Entry>)
    ensures |s| <= |r| <= |s| + 1
  {
    if s == [] || code < s[0].code then [Entry(code, reason)] + s
    else if s[0].code == code then [Entry(code, reason)] + s[1..]
    else [s[0]] + Inserted(s[1..], code, reason)
  }

  /** An insert brings in no pair other than the new one. */
  lemma {:induction false} InsertedFrom(s: seq<Entry>, code: U16, reason: string)
    ensures forall j :: 0 <= j < |Inserted(s, code, reason)| ==>
              Inserted(s, code, reason)[j] == Entry(code, reason) || Inserted(s, code, reason)[j] in s
  {
    if s != [] && s[0].code < code {
      InsertedFrom(s[1..], code, reason);
      var r := Inserted(s, code, reason);
      forall j | 0 <= j < |r|
        ensures r[j] == Entry(code, reason) || r[j] in s
      {
        if j > 0 {
          assert r[j] == Inserted(s[1..], code, reason)[j - 1];
        }
      }
    }
  }

  /** After the insert, `code` finds `reason` and every other code what it found before. */
  lemma {:induction false} LookupInserted(s: seq<Entry>, code: U16, reason: string, c: U16)
    ensures Lookup(Inserted(s, code, reason), c) == if c == code then Some(reason) else Lookup(s, c)
  {
    if s != [] && s[0].code < code {
      LookupInserted(s[1..], code, reason, c);
    }
  }

  /** Inserting keeps the codes unique and ascending. */
  lemma {:induction false} AscendingInserted(s: seq<Entry>, code: U16, reason: string)
    requires Ascending(s)
    ensures Ascending(Inserted(s, code, reason))
  {
    if s != [] && s[0].code < code {
      AscendingInserted(s[1..], code, reason);
      InsertedFrom(s[1..], code, reason);
      var t := Inserted(s[1..], code, reason);
      forall j | 0 <= j < |t|
        ensures s[0].code < t[j].code
      {
        if t[j] != Entry(code, reason) {
          var k :| 0 <= k < |s[1..]| && s[1..][k] == t[j];
          assert s[k + 1] == t[j];
        }
      }
    }
  }

  /** The map grows by one pair exactly when `code` was absent. */
  lemma {:induction false} InsertedLength(s: seq<Entry>, code: U16, reason: string)
    requires Ascending(s)
    ensures |Inserted(s, code, reason)| == |s| + (if Lookup(s, code).None? then 1 else 0)
  {
    if s != [] && s[0].code < code {
      InsertedLength(s[1..], code, reason);
    } else if s != [] && code < s[0].code {
      forall i | 0 <= i < |s|
        ensures s[i].code != code
      {
        assert s[0].code <= s[i].code;
      }
      LookupSpec(s, code);
    }
  }

  /** A code above every present one is added at the end. */
  lemma {:induction false} InsertedAtEnd(s: seq<Entry>, code: U16, reason: string)
    requires Ascending(s)
    requires s == [] || s[|s| - 1].code < code
    ensures Inserted(s, code, reason) == s + [Entry(code, reason)]
  {
    if s != [] {
      assert s[0].code <= s[|s| - 1].code;
      if |s| > 1 {
        InsertedAtEnd(s[1..], code, reason);
      }
      assert s == [s[0]] + s[1..];
    }
  }

  /**
   * Where the insert lands when `code` is present: at the first position `i`
   * whose code is not below `code`, replacing that pair's value.
   */
  lemma {:induction false} InsertedReplaces(s: seq<Entry>, code: U16, reason: string, i: nat)
    requires i < |s| && s[i].code == code
    requires forall j :: 0 <= j < i ==> s[j].code < code
    ensures Inserted(s, code, reason) == s[i := Entry(code, reason)]
  {
    if i > 0 {
      InsertedReplaces(s[1..], code, reason, i - 1);
      assert [s[0]] + s[1..][i - 1 := Entry(code, reason)] == s[i := Entry(code, reason)];
    }
  }

  /**
   * Where the insert lands when `code` is absent: just before the first
   * position `i` whose code is above `code`, or at the end.
   */
  lemma {:induction false} InsertedSplices(s: seq<Entry>, code: U16, reason: string, i: nat)
    requires i <= |s| && (i < |s| ==> code < s[i].code)
    requires forall j :: 0 <= j < i ==> s[j].code < code
    ensures Inserted(s, code, reason) == s[..i] + [Entry(code, reason)] + s[i..]
  {
    if i > 0 {
      var t := s[1..];
      assert s[0].code < code;
      InsertedSplices(t, code, reason, i - 1);
      assert s[..i] == [s[0]] + t[..i - 1];
      assert s[i..] == t[i - 1..];
    }
  }

  /** A map from status code to reason phrase whose iteration order is ascending. */
  class CodeMap {
    var entries: seq<Entry>

    ghost predicate Valid()
      reads this
    {
      Ascending(entries)
    }

    /** `BTreeMap::new`: the empty map. */
    constructor ()
      ensures Valid() && entries == []
    {
      entries := [];
    }

    /**
     * `BTreeMap::insert`: the contents become `Inserted(old contents)`, which
     * binds `code` to `reason` and keeps every other binding (LookupInserted),
     * growing by one pair exactly when `code` was absent (InsertedLength). The
     * previous value under `code` is returned. A code above every present one
     * is added at the end.
     */
    method Insert(code: U16, reason: string) returns (prev: Option<string>)
      requires Valid()
      modifies this
      ensures Valid()
      ensures entries == Inserted(old(entries), code, reason)
      ensures prev == Lookup(old(entries), code)
      ensures old(entries) == [] || old(entries)[|old(entries)| - 1].code < code ==>
                entries == old(entries) + [Entry(code, reason)]
    {
      var i := 0;
      while i < |entries| && entries[i].code < code
        invariant 0 <= i <= |entries|
        invariant forall j :: 0 <= j < i ==> entries[j].code < code
      {
        i := i + 1;
      }
      var s := entries;
      AscendingInserted(s, code, reason);
      LookupInserted(s, code, reason, code);
      if s == [] || s[|s| - 1].code < code {
        InsertedAtEnd(s, code, reason);
      }
      if i < |s| && s[i].code == code {
        InsertedReplaces(s, code, reason, i);
        LookupAt(s, i);
        prev := Some(s[i].reason);
        entries := s[i := Entry(code, reason)];
      } else {
        InsertedSplices(s, code, reason, i);
        forall j | 0 <= j < |s|
          ensures s[j].code != code
        {
          if j > i {
            assert s[i].code < s[j].code;
          }
        }
        LookupSpec(s, code);
        prev := None;
        entries := s[..i] + [Entry(code, reason)] + s[i..];
      }
    }
  }
}
