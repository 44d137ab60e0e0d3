/**
 * The admin-level filter of `FrenchAddress::createFromArray`: which raw
 * `adminLevels` entries become `AdminLevel` objects, and which are dropped.
 */
module AdminLevelFilter {
  import opened PhpValues
  import opened Geocoder

  /**
   * `$adminLevel['name'] ?? $adminLevel['code'] ?? null`: `??` falls through
   * to the code only when the name is null (or missing), never when it is an
   * empty string.
   */
  function ResolvedName(entry: Value): Value {
    var name := Lookup(entry, "name");
    if name != Null then name else Lookup(entry, "code")
  }

  /** An entry is kept iff its level is non-empty and its resolved name is non-empty. */
  predicate Keeps(entry: Value) {
    !Empty(Lookup(entry, "level")) && !Empty(ResolvedName(entry))
  }

  /**
   * A kept entry carries what `new AdminLevel(int, string, ?string)` accepts:
   * an integer level, a string name and a string or null code.
   */
  predicate EntryTyped(entry: Value) {
    Keeps(entry) ==>
      && Lookup(entry, "level").Num?
      && Lookup(entry, "level").n.IntNumber?
      && ResolvedName(entry).Str?
      && NullableString(Lookup(entry, "code"))
  }

  predicate LevelsTyped(entries: seq<Value>) {
    forall j :: 0 <= j < |entries| ==> EntryTyped(entries[j])
  }

  /** `new AdminLevel($adminLevel['level'], $name, $adminLevel['code'] ?? null)`. */
  function MakeLevel(entry: Value): AdminLevel
    requires Keeps(entry) && EntryTyped(entry)
  {
    AdminLevel(Lookup(entry, "level").n.i, ResolvedName(entry).s, OptString(Lookup(entry, "code")))
  }

  /** The levels the `foreach` loop collects from `entries`, in order. */
  function KeptLevels(entries: seq<Value>): (r: seq<AdminLevel>)
    requires LevelsTyped(entries)
    ensures |r| <= |entries|
  {
    if entries == [] then []
    else (if Keeps(entries[0]) then [MakeLevel(entries[0])] else []) + KeptLevels(entries[1..])
  }

  /** Filtering distributes over concatenation: entries are judged one by one, in order. */
  lemma {:induction false} KeptLevelsAppend(a: seq<Value>, b: seq<Value>)
    requires LevelsTyped(a) && LevelsTyped(b)
    ensures LevelsTyped(a + b)
    ensures KeptLevels(a + b) == KeptLevels(a) + KeptLevels(b)
  {
    assert LevelsTyped(a + b) by {
      forall j | 0 <= j < |a + b| ensures EntryTyped((a + b)[j]) {
        if j < |a| { assert (a + b)[j] == a[j]; } else { assert (a + b)[j] == b[j - |a|]; }
      }
    }
    if a == [] {
      assert a + b == b;
    } else {
      assert (a + b)[0] == a[0];
      assert (a + b)[1..] == a[1..] + b;
      KeptLevelsAppend(a[1..], b);
    }
  }

  /** One more entry of the loop: the kept levels grow by that entry's level, if it is kept. */
  lemma KeptLevelsStep(entries: seq<Value>, i: nat)
    requires LevelsTyped(entries) && i < |entries|
    ensures LevelsTyped(entries[..i]) && LevelsTyped(entries[..i + 1])
    ensures KeptLevels(entries[..i + 1]) ==
              KeptLevels(entries[..i]) + if Keeps(entries[i]) then [MakeLevel(entries[i])] else []
  {
    var front, next := entries[..i], [entries[i]];
    assert entries[..i + 1] == front + next;
    assert LevelsTyped(front) by {
      forall k | 0 <= k < |front| ensures EntryTyped(front[k]) { assert front[k] == entries[k]; }
    }
    assert LevelsTyped(next) by { assert next[0] == entries[i]; }
    KeptLevelsAppend(front, next);
    assert next[1..] == [];
  }

  /** A level is in the result iff some kept entry of the input builds it. */
  lemma {:induction false} KeptLevelsMembership(entries: seq<Value>, level: AdminLevel)
    requires LevelsTyped(entries)
    ensures level in KeptLevels(entries) <==>
              exists j :: 0 <= j < |entries| && Keeps(entries[j]) && MakeLevel(entries[j]) == level
  {
    if entries != [] {
      var rest := entries[1..];
      KeptLevelsMembership(rest, level);
      if level in KeptLevels(rest) {
        var j :| 0 <= j < |rest| && Keeps(rest[j]) && MakeLevel(rest[j]) == level;
        assert entries[j + 1] == rest[j];
      }
      if exists j :: 0 <= j < |entries| && Keeps(entries[j]) && MakeLevel(entries[j]) == level {
        var j :| 0 <= j < |entries| && Keeps(entries[j]) && MakeLevel(entries[j]) == level;
        if j > 0 {
          assert rest[j - 1] == entries[j];
        }
      }
    }
  }

  /**
   * The result is an order-preserving subsequence of the input: of two kept
   * entries, the earlier one's level comes first.
   */
  lemma KeptLevelsOrder(entries: seq<Value>, i: nat, j: nat)
    requires LevelsTyped(entries)
    requires i < j < |entries| && Keeps(entries[i]) && Keeps(entries[j])
    ensures exists p, q :: 0 <= p < q < |KeptLevels(entries)| &&
              KeptLevels(entries)[p] == MakeLevel(entries[i]) &&
              KeptLevels(entries)[q] == MakeLevel(entries[j])
  {
    var front, back := entries[..j], entries[j..];
    assert entries == front + back;
    assert LevelsTyped(front) by {
      forall k | 0 <= k < |front| ensures EntryTyped(front[k]) { assert front[k] == entries[k]; }
    }
    assert LevelsTyped(back) by {
      forall k | 0 <= k < |back| ensures EntryTyped(back[k]) { assert back[k] == entries[j + k]; }
    }
    KeptLevelsAppend(front, back);
    assert front[i] == entries[i];
    KeptLevelsMembership(front, MakeLevel(entries[i]));
    var p :| 0 <= p < |KeptLevels(front)| && KeptLevels(front)[p] == MakeLevel(entries[i]);
    assert back[0] == entries[j];
    assert KeptLevels(back)[0] == MakeLevel(entries[j]);
    var q := |KeptLevels(front)|;
    assert KeptLevels(entries)[p] == MakeLevel(entries[i]);
    assert KeptLevels(entries)[q] == MakeLevel(entries[j]);
  }

  /**
   * A name that is present but empty ("" or "0") hides the code: `??` does not
   * fall through on it, so the entry is dropped even when it has a code.
   */
  lemma EmptyNameShadowsCode(entry: Value)
    requires Lookup(entry, "name") == Str("") || Lookup(entry, "name") == Str("0")
    ensures LevelsTyped([entry]) && KeptLevels([entry]) == []
  {
  }
}
