/** The completion menu that the completions handler gives the omni sink:
    a seed entry carrying the server's prefix, then every candidate whose
    name starts with the typed base, each as `{word, info, kind?}`, the
    whole sorted by word. */
module Completions {
  import opened Payloads
  import opened Text

  /** A menu entry; the seed entry has neither `info` nor `kind`. */
  datatype Entry = Entry(word: string, info: Option<string>, kind: Option<char>)

  /** The first entry of the menu before sorting: just the server prefix. */
  function Seed(prefix: string): (e: Entry)
    ensures e.word == prefix && e.info.None? && e.kind.None?
    ensures forall c :: ToEntry(c) != e
  {
    Entry(prefix, None, None)
  }

  /** Vim's kind letter for a callable ('f') and a non-callable ('v') candidate. */
  function KindLetter(callable: bool): (k: char)
    ensures k == 'f' <==> callable
    ensures k == 'v' <==> !callable
  {
    if callable then 'f' else 'v'
  }

  /** One candidate as a menu entry. */
  function ToEntry(c: Completion): (e: Entry)
    ensures e.word == c.name && e.info == Some(c.typeSig)
    ensures e.kind.Some? <==> c.isCallable.Some?
    ensures c.isCallable == Some(true) ==> e.kind == Some('f')
    ensures c.isCallable == Some(false) ==> e.kind == Some('v')
  {
    Entry(c.name, Some(c.typeSig),
          match c.isCallable
          case Some(b) => Some(KindLetter(b))
          case None => None)
  }

  /** The base filter: no filter when the base is empty, otherwise the name
      must start with the base. */
  predicate PassesBase(base: string, name: string)
    ensures PassesBase(base, name) <==> |base| <= |name| && name[..|base|] == base
    ensures PassesBase(base, name) ==> LexLe(base, name)
  {
    base == "" || base <= name
  }

  /** The retained candidates as entries, in the server's order. */
  function MenuEntries(base: string, comps: seq<Completion>): (es: seq<Entry>)
    ensures |es| <= |comps|
  {
    if comps == [] then []
    else
      var last := comps[|comps| - 1];
      MenuEntries(base, comps[..|comps| - 1]) + (if PassesBase(base, last.name) then [ToEntry(last)] else [])
  }

  /** An entry is in the menu exactly when it comes from a candidate that
      passes the base filter. */
  lemma {:induction false} MenuEntriesMembers(base: string, comps: seq<Completion>, e: Entry)
    ensures e in MenuEntries(base, comps) <==>
      exists i :: 0 <= i < |comps| && PassesBase(base, comps[i].name) && e == ToEntry(comps[i])
  {
    if comps != [] {
      var init := comps[..|comps| - 1];
      MenuEntriesMembers(base, init, e);
      if e in MenuEntries(base, init) {
        var i :| 0 <= i < |init| && PassesBase(base, init[i].name) && e == ToEntry(init[i]);
        assert comps[i] == init[i];
      }
      if exists i :: 0 <= i < |comps| && PassesBase(base, comps[i].name) && e == ToEntry(comps[i]) {
        var i :| 0 <= i < |comps| && PassesBase(base, comps[i].name) && e == ToEntry(comps[i]);
        if i < |init| { assert init[i] == comps[i]; }
      }
    }
  }

  /** With an empty base nothing is filtered out. */
  lemma {:induction false} EmptyBaseKeepsAll(comps: seq<Completion>)
    ensures |MenuEntries("", comps)| == |comps|
    ensures forall i :: 0 <= i < |comps| ==> MenuEntries("", comps)[i] == ToEntry(comps[i])
  {
    if comps != [] {
      var init := comps[..|comps| - 1];
      EmptyBaseKeepsAll(init);
    }
  }

  /** Every menu entry is a candidate's entry and so has an `info`, which the
      seed does not: the seed is never one of the filtered entries. */
  lemma SeedNotAmongEntries(prefix: string, base: string, comps: seq<Completion>)
    ensures Seed(prefix) !in MenuEntries(base, comps)
  {
  }

  /** Sorted by word, in Python's string order. */
  predicate SortedByWord(es: seq<Entry>) {
    forall i, j :: 0 <= i < j < |es| ==> LexLe(es[i].word, es[j].word)
  }

  /** The entries of `es` whose word is `w`, in order. */
  function WithWord(es: seq<Entry>, w: string): (r: seq<Entry>)
    ensures |r| <= |es|
  {
    if es == [] then []
    else (if es[0].word == w then [es[0]] else []) + WithWord(es[1..], w)
  }

  /** `e` placed before the first entry whose word is not smaller. */
  function Insert(e: Entry, es: seq<Entry>): (r: seq<Entry>)
    ensures multiset(r) == multiset(es) + multiset{e}
  {
    if es == [] then [e]
    else if LexLe(e.word, es[0].word) then [e] + es
    else
      assert es == [es[0]] + es[1..];
      [es[0]] + Insert(e, es[1..])
  }

  lemma {:induction false} InsertSorted(e: Entry, es: seq<Entry>)
    requires SortedByWord(es)
    ensures SortedByWord(Insert(e, es))
  {
    if es == [] {
    } else if LexLe(e.word, es[0].word) {
      var r := [e] + es;
      forall i, j | 0 <= i < j < |r| ensures LexLe(r[i].word, r[j].word) {
        if i == 0 && j > 1 { LexLeTransitive(e.word, es[0].word, r[j].word); }
      }
    } else {
      var rest := es[1..];
      InsertSorted(e, rest);
      LexLeTotal(e.word, es[0].word);
      var r := Insert(e, es);
      assert r == [es[0]] + Insert(e, rest);
      forall j | 0 < j < |r| ensures LexLe(es[0].word, r[j].word) {
        assert r[j] in multiset(Insert(e, rest));
        assert r[j] in multiset(rest) || r[j] == e;
        if r[j] != e {
          var k :| 0 <= k < |rest| && rest[k] == r[j];
          assert rest[k] == es[k + 1];
        }
      }
    }
  }

  /** Insertion keeps the equal-word entries in order, the new one first. */
  lemma {:induction false} InsertStable(e: Entry, es: seq<Entry>, w: string)
    ensures WithWord(Insert(e, es), w) == (if e.word == w then [e] else []) + WithWord(es, w)
  {
    var mine := if e.word == w then [e] else [];
    if es == [] {
      assert [e][1..] == [];
      assert WithWord([e], w) == mine + WithWord([], w);
    } else if LexLe(e.word, es[0].word) {
      assert ([e] + es)[1..] == es;
      assert WithWord([e] + es, w) == mine + WithWord(es, w);
    } else {
      var rest := Insert(e, es[1..]);
      InsertStable(e, es[1..], w);
      var head := if es[0].word == w then [es[0]] else [];
      var r := [es[0]] + rest;
      assert r[1..] == rest;
      assert WithWord(r, w) == head + WithWord(rest, w);
      assert WithWord(es, w) == head + WithWord(es[1..], w);
      if e.word == w {
        // es[0] sorts strictly before e, so its word is not w
        LexLeReflexive(e.word);
        assert head == [];
      } else {
        assert mine == [];
      }
      assert WithWord(r, w) == mine + WithWord(es, w);
    }
  }

  /** Python's `sorted(es, key=word)`: a stable sort by word. */
  function SortByWord(es: seq<Entry>): (r: seq<Entry>)
    ensures multiset(r) == multiset(es)
  {
    if es == [] then []
    else
      assert es == [es[0]] + es[1..];
      Insert(es[0], SortByWord(es[1..]))
  }

  /** The sorted list is ordered by word. */
  lemma {:induction false} SortByWordSorted(es: seq<Entry>)
    ensures SortedByWord(SortByWord(es))
  {
    if es != [] {
      SortByWordSorted(es[1..]);
      InsertSorted(es[0], SortByWord(es[1..]));
    }
  }

  /** The sort is stable: entries with the same word keep their order. */
  lemma {:induction false} SortByWordStable(es: seq<Entry>, w: string)
    ensures WithWord(SortByWord(es), w) == WithWord(es, w)
  {
    if es != [] {
      SortByWordStable(es[1..], w);
      InsertStable(es[0], SortByWord(es[1..]), w);
    }
  }

  /** The list the handler delivers to the omni sink. */
  function CompletionMenu(prefix: string, base: string, comps: seq<Completion>): (menu: seq<Entry>)
    ensures SortedByWord(menu)
    ensures multiset(menu) == multiset([Seed(prefix)] + MenuEntries(base, comps))
    ensures Seed(prefix) in menu
    ensures 1 <= |menu| <= 1 + |comps|
  {
    var built := [Seed(prefix)] + MenuEntries(base, comps);
    SortByWordSorted(built);
    var menu := SortByWord(built);
    assert Seed(prefix) in multiset(built);
    assert |menu| == |multiset(menu)| == |multiset(built)| == |built|;
    menu
  }

  /** Membership in the delivered menu: the seed, and the entry of exactly
      those candidates that pass the base filter. */
  lemma CompletionMenuMembers(prefix: string, base: string, comps: seq<Completion>, e: Entry)
    ensures e in CompletionMenu(prefix, base, comps) <==>
      e == Seed(prefix) ||
      exists i :: 0 <= i < |comps| && PassesBase(base, comps[i].name) && e == ToEntry(comps[i])
  {
    var built := [Seed(prefix)] + MenuEntries(base, comps);
    var menu := CompletionMenu(prefix, base, comps);
    assert e in menu <==> e in multiset(menu);
    assert e in built <==> e in multiset(built);
    MenuEntriesMembers(base, comps, e);
  }

  /** Base "f" over foo, far and bar with prefix "f": bar is dropped and
      the rest comes out sorted as f, far, foo. */
  lemma BaseFilterExample()
    ensures var comps := [Completion("foo", "Int", None), Completion("far", "Int", None), Completion("bar", "Int", None)];
      CompletionMenu("f", "f", comps) == [Seed("f"), ToEntry(comps[1]), ToEntry(comps[0])]
  {
    var comps := [Completion("foo", "Int", None), Completion("far", "Int", None), Completion("bar", "Int", None)];
    var foo, far := ToEntry(comps[0]), ToEntry(comps[1]);
    assert PassesBase("f", "foo") && PassesBase("f", "far");
    assert "bar"[0] == 'b' && "f"[0] == 'f';
    assert !PassesBase("f", "bar");
    assert comps[..1][..0] == [];
    assert MenuEntries("f", comps[..1]) == [foo];
    assert comps[..2][..1] == comps[..1];
    assert MenuEntries("f", comps[..2]) == [foo, far];
    assert comps[..3][..2] == comps[..2];
    assert MenuEntries("f", comps) == [foo, far];
    var built := [Seed("f"), foo, far];
    assert built[1..] == [foo, far] && built[1..][1..] == [far];
    assert SortByWord([far]) == [far];
    assert !LexLe("foo", "far");
    assert Insert(foo, [far]) == [far, foo];
    assert SortByWord([foo, far]) == [far, foo];
    assert LexLe("f", "far");
    assert Insert(Seed("f"), [far, foo]) == [Seed("f"), far, foo];
  }
}
