/** A jar as both archive rewriters see it, and the choice of entries they
    copy to the output: the manifest entry is left out when the output
    stream writes the manifest itself, and of several entries with the same
    name only the first is written. */
module Archive {
  import opened Common

  /** One jar entry: its name, whether it is a directory, and its bytes. */
  datatype Entry = Entry(name: string, isDirectory: bool, data: seq<bv8>)

  /** The manifest the jar declares (null when it has none) and its entries
      in the order the archive lists them. A jar declares a manifest
      exactly when it holds a `META-INF/MANIFEST.MF` entry; the manifest
      skip touches only that entry, which is never a class (see
      ManifestIsNoClass), so it cannot change what is counted. */
  datatype Jar = Jar(manifest: Option<seq<bv8>>, entries: seq<Entry>)

  const ManifestName: string := "META-INF/MANIFEST.MF"

  /** When the jar has a manifest, the output stream is opened with it and
      writes it first, so an entry with the manifest's name (in any case)
      is not copied again. */
  predicate SkippedAsManifest(hasManifest: bool, name: string)
  {
    hasManifest && EqualsIgnoreCase(ManifestName, name)
  }

  /** A non-directory entry whose name ends in `.class`. */
  predicate IsClassEntry(e: Entry)
  {
    !e.isDirectory && EndsWith(e.name, ".class")
  }

  /** An entry named like the manifest, in any case, ends in 'F' or 'f',
      so it is never a class entry. */
  lemma ManifestIsNoClass(e: Entry)
    requires EqualsIgnoreCase(ManifestName, e.name)
    ensures !IsClassEntry(e)
  {
    var n := |e.name|;
    assert LowerAscii(e.name[n - 1]) == LowerAscii(ManifestName[n - 1]) == 'f';
  }

  /** The names of a sequence of entries. */
  function Names(ws: seq<Entry>): set<string>
  {
    if ws == [] then {} else Names(ws[..|ws| - 1]) + {ws[|ws| - 1].name}
  }

  /** The entries the rewrite loop writes, in the order it writes them:
      each entry is taken in turn, skipped when it is the manifest or when
      an entry of its name was already written, and written otherwise. */
  function Written(entries: seq<Entry>, hasManifest: bool): seq<Entry>
  {
    if entries == [] then []
    else
      var front := Written(entries[..|entries| - 1], hasManifest);
      var e := entries[|entries| - 1];
      if SkippedAsManifest(hasManifest, e.name) || e.name in Names(front) then front else front + [e]
  }

  /** The loop's step: one more input entry adds it to the output exactly
      when it is neither the manifest nor a name already written. */
  lemma WrittenStep(entries: seq<Entry>, hasManifest: bool, i: nat)
    requires i < |entries|
    ensures Written(entries[..i + 1], hasManifest)
            == if SkippedAsManifest(hasManifest, entries[i].name) || entries[i].name in Names(Written(entries[..i], hasManifest))
               then Written(entries[..i], hasManifest)
               else Written(entries[..i], hasManifest) + [entries[i]]
  {
    assert entries[..i + 1][..i] == entries[..i];
  }

  lemma NamesSnoc(ws: seq<Entry>, e: Entry)
    ensures Names(ws + [e]) == Names(ws) + {e.name}
  {
    assert (ws + [e])[..|ws|] == ws;
  }

  /** Every entry's name is among the names. */
  lemma {:induction false} NamesHas(ws: seq<Entry>)
    ensures forall k :: 0 <= k < |ws| ==> ws[k].name in Names(ws)
  {
    if ws != [] {
      NamesHas(ws[..|ws| - 1]);
      assert forall k :: 0 <= k < |ws| - 1 ==> ws[..|ws| - 1][k] == ws[k];
    }
  }

  /** A name no input entry has is never written. */
  lemma {:induction false} WrittenNamesFromInput(entries: seq<Entry>, hasManifest: bool, n: string)
    requires forall j :: 0 <= j < |entries| ==> entries[j].name != n
    ensures n !in Names(Written(entries, hasManifest))
  {
    if entries != [] {
      var front := entries[..|entries| - 1];
      WrittenNamesFromInput(front, hasManifest, n);
      var w := Written(front, hasManifest);
      var e := entries[|entries| - 1];
      if !(SkippedAsManifest(hasManifest, e.name) || e.name in Names(w)) {
        NamesSnoc(w, e);
      }
    }
  }

  /** Every written entry is an entry of the input, and none is the
      manifest when the output writes the manifest itself. */
  lemma {:induction false} WrittenFromInput(entries: seq<Entry>, hasManifest: bool)
    ensures forall k :: 0 <= k < |Written(entries, hasManifest)| ==>
              Written(entries, hasManifest)[k] in entries &&
              !SkippedAsManifest(hasManifest, Written(entries, hasManifest)[k].name)
  {
    if entries != [] {
      var front := entries[..|entries| - 1];
      WrittenFromInput(front, hasManifest);
      assert forall x :: x in front ==> x in entries;
    }
  }

  /** No two of the entries share a name. */
  predicate DistinctNames(ws: seq<Entry>)
  {
    forall i, j :: 0 <= i < j < |ws| ==> ws[i].name != ws[j].name
  }

  /** No two written entries share a name. */
  lemma {:induction false} WrittenDistinct(entries: seq<Entry>, hasManifest: bool)
    ensures DistinctNames(Written(entries, hasManifest))
  {
    if entries != [] {
      var front := entries[..|entries| - 1];
      WrittenDistinct(front, hasManifest);
      var w := Written(front, hasManifest);
      var e := entries[|entries| - 1];
      if !(SkippedAsManifest(hasManifest, e.name) || e.name in Names(w)) {
        NamesHas(w);
        var all := w + [e];
        forall i, j | 0 <= i < j < |all|
          ensures all[i].name != all[j].name
        {
          if j == |w| {
            assert all[i] == w[i] && all[j] == e;
            assert w[i].name in Names(w);
            assert e.name !in Names(w);
          } else {
            assert all[i] == w[i] && all[j] == w[j];
            assert w[i].name != w[j].name;
          }
        }
        assert Written(entries, hasManifest) == all;
        assert DistinctNames(all);
      }
    }
  }

  /** A jar with distinct names and no manifest entry to skip is written
      whole, in its own order. */
  lemma {:induction false} WrittenAll(entries: seq<Entry>, hasManifest: bool)
    requires DistinctNames(entries)
    requires forall i :: 0 <= i < |entries| ==> !SkippedAsManifest(hasManifest, entries[i].name)
    ensures Written(entries, hasManifest) == entries
  {
    if entries != [] {
      var front := entries[..|entries| - 1];
      var e := entries[|entries| - 1];
      assert forall i :: 0 <= i < |front| ==> front[i] == entries[i];
      WrittenAll(front, hasManifest);
      WrittenNamesFromInput(front, hasManifest, e.name);
      assert front + [e] == entries;
    }
  }

  /** The names written only grow as the loop goes on. */
  lemma NamesGrow(entries: seq<Entry>, hasManifest: bool)
    requires entries != []
    ensures Names(Written(entries[..|entries| - 1], hasManifest)) <= Names(Written(entries, hasManifest))
  {
    var w := Written(entries[..|entries| - 1], hasManifest);
    NamesSnoc(w, entries[|entries| - 1]);
  }

  /** Every name of the input (the manifest's aside) is written. */
  lemma {:induction false} WrittenComplete(entries: seq<Entry>, hasManifest: bool)
    ensures forall i :: 0 <= i < |entries| && !SkippedAsManifest(hasManifest, entries[i].name) ==>
              entries[i].name in Names(Written(entries, hasManifest))
  {
    if entries != [] {
      var front := entries[..|entries| - 1];
      WrittenComplete(front, hasManifest);
      NamesGrow(entries, hasManifest);
      assert forall i :: 0 <= i < |front| ==> front[i] == entries[i];
      var w := Written(front, hasManifest);
      var e := entries[|entries| - 1];
      if !(SkippedAsManifest(hasManifest, e.name) || e.name in Names(w)) {
        NamesSnoc(w, e);
      }
    }
  }

  /** What is written for a prefix of the entries is a prefix of what is
      written for all of them: entries are written in input order. */
  lemma {:induction false} WrittenPrefix(entries: seq<Entry>, hasManifest: bool, i: nat)
    requires i <= |entries|
    ensures Written(entries[..i], hasManifest) <= Written(entries, hasManifest)
    decreases |entries| - i
  {
    if i < |entries| {
      WrittenPrefix(entries, hasManifest, i + 1);
      WrittenStep(entries, hasManifest, i);
    } else {
      assert entries[..i] == entries;
    }
  }

  /** The first entry of each name (the manifest aside) is the one written,
      at the position after everything written for the entries before it. */
  lemma WrittenFirst(entries: seq<Entry>, hasManifest: bool, i: nat)
    requires i < |entries| && !SkippedAsManifest(hasManifest, entries[i].name)
    requires forall j :: 0 <= j < i ==> entries[j].name != entries[i].name
    ensures |Written(entries[..i + 1], hasManifest)| == |Written(entries[..i], hasManifest)| + 1
    ensures |Written(entries[..i], hasManifest)| < |Written(entries, hasManifest)|
    ensures Written(entries, hasManifest)[|Written(entries[..i], hasManifest)|] == entries[i]
  {
    assert forall j :: 0 <= j < i ==> entries[..i][j] == entries[j];
    WrittenNamesFromInput(entries[..i], hasManifest, entries[i].name);
    WrittenStep(entries, hasManifest, i);
    WrittenPrefix(entries, hasManifest, i + 1);
  }

  /** Two first-of-their-name entries are written in the order they come:
      the later one's position is past the earlier one's. */
  lemma WrittenInOrder(entries: seq<Entry>, hasManifest: bool, i: nat, j: nat)
    requires i < j < |entries|
    requires !SkippedAsManifest(hasManifest, entries[i].name) && !SkippedAsManifest(hasManifest, entries[j].name)
    requires forall k :: 0 <= k < i ==> entries[k].name != entries[i].name
    requires forall k :: 0 <= k < j ==> entries[k].name != entries[j].name
    ensures var w := Written(entries, hasManifest);
            var p := |Written(entries[..i], hasManifest)|;
            var q := |Written(entries[..j], hasManifest)|;
            p < q < |w| && w[p] == entries[i] && w[q] == entries[j]
  {
    WrittenFirst(entries, hasManifest, i);
    WrittenFirst(entries, hasManifest, j);
    assert entries[..j][..i + 1] == entries[..i + 1];
    WrittenPrefix(entries[..j], hasManifest, i + 1);
    assert |Written(entries[..i + 1], hasManifest)| <= |Written(entries[..j], hasManifest)|;
  }
}
