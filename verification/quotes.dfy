/**
 * The quote catalog: records loaded once from the packaged JSON resource,
 * each holding one line of Nael deus Darnus in five client languages, and
 * GetQuote, which picks the text for the client language and cleans it up.
 */
module Quotes {
  import opened Wrappers

  /** The client language the host reports. Only four values are told apart;
      every other value (including ones added later) is OtherLanguage. */
  datatype Language = English | French | German | Japanese | OtherLanguage(code: int)

  /** The five translations of one quote. */
  datatype Text = Text(de: string, en: string, fr: string, jp: string, cn: string)

  /** One catalog record: the game's id for the line and its translations. */
  datatype Quote = Quote(id: int, text: Text)

  /** Index of the first record with the given id, as List.Find scans. */
  function IndexOf(catalog: seq<Quote>, id: int): (r: Option<nat>)
    ensures r.None? <==> forall i :: 0 <= i < |catalog| ==> catalog[i].id != id
    ensures r.Some? ==> r.value < |catalog| && catalog[r.value].id == id
    ensures r.Some? ==> forall j :: 0 <= j < r.value ==> catalog[j].id != id
  {
    if catalog == [] then None
    else if catalog[0].id == id then Some(0)
    else match IndexOf(catalog[1..], id)
      case None => None
      case Some(k) => Some(k + 1)
  }

  /** The translation for the client language; anything that is not English,
      French, German or Japanese falls back to the Chinese text. */
  function TextFor(t: Text, lang: Language): (r: string)
    ensures lang == English ==> r == t.en
    ensures lang == French ==> r == t.fr
    ensures lang == German ==> r == t.de
    ensures lang == Japanese ==> r == t.jp
    ensures lang.OtherLanguage? ==> r == t.cn
  {
    match lang
    case English => t.en
    case French => t.fr
    case German => t.de
    case Japanese => t.jp
    case OtherLanguage(_) => t.cn
  }

  /** Two newlines starting at position i. */
  predicate PairAt(s: string, i: int)
  {
    0 <= i && i + 1 < |s| && s[i] == '\n' && s[i + 1] == '\n'
  }

  predicate HasPair(s: string)
  {
    exists i :: 0 <= i < |s| && PairAt(s, i)
  }

  /** Three newlines starting at position i. */
  predicate TripleAt(s: string, i: int)
  {
    PairAt(s, i) && i + 2 < |s| && s[i + 2] == '\n'
  }

  predicate HasTriple(s: string)
  {
    exists i :: 0 <= i < |s| && TripleAt(s, i)
  }

  /** String.Replace("\n\n", "\n"): occurrences are found left to right and
      do not overlap; each is replaced by a single newline. */
  function Collapse(s: string): (r: string)
    ensures |r| <= |s|
    decreases |s|
  {
    if |s| < 2 then s
    else if s[0] == '\n' && s[1] == '\n' then "\n" + Collapse(s[2..])
    else [s[0]] + Collapse(s[1..])
  }

  /** How many occurrences Collapse replaces. */
  function Replacements(s: string): nat
    decreases |s|
  {
    if |s| < 2 then 0
    else if s[0] == '\n' && s[1] == '\n' then 1 + Replacements(s[2..])
    else Replacements(s[1..])
  }

  /** The characters of s other than newlines, in order. */
  function NonNewlines(s: string): string
  {
    if s == [] then []
    else if s[0] == '\n' then NonNewlines(s[1..])
    else [s[0]] + NonNewlines(s[1..])
  }

  /** The cleaned-up text of the first record with the id, or None when no
      record has it (the source then reads the null text of a default record
      and fails). */
  function GetQuote(catalog: seq<Quote>, lang: Language, id: int): (r: Option<string>)
    ensures r.None? <==> forall i :: 0 <= i < |catalog| ==> catalog[i].id != id
  {
    match IndexOf(catalog, id)
    case None => None
    case Some(k) => Some(Collapse(TextFor(catalog[k].text, lang)))
  }

  /** GetQuote reads the first record that carries the id. */
  lemma GetQuoteFirstRecord(catalog: seq<Quote>, lang: Language, id: int, i: nat)
    requires i < |catalog| && catalog[i].id == id
    requires forall j :: 0 <= j < i ==> catalog[j].id != id
    ensures GetQuote(catalog, lang, id) == Some(Collapse(TextFor(catalog[i].text, lang)))
  {
    var k := IndexOf(catalog, id).value;
    assert !(k < i) && !(i < k);
  }

  /** Every replacement removes exactly one character. */
  lemma {:induction false} CollapseLength(s: string)
    ensures |Collapse(s)| == |s| - Replacements(s)
    decreases |s|
  {
    if |s| < 2 {
    } else if s[0] == '\n' && s[1] == '\n' {
      CollapseLength(s[2..]);
    } else {
      CollapseLength(s[1..]);
    }
  }

  lemma {:induction false} NoPairTail(s: string, k: nat)
    requires k <= |s|
    requires !HasPair(s)
    ensures !HasPair(s[k..])
  {
    if HasPair(s[k..]) {
      var i :| 0 <= i < |s[k..]| && PairAt(s[k..], i);
      assert PairAt(s, i + k);
    }
  }

  /** Nothing is replaced exactly when the text holds no "\n\n". */
  lemma {:induction false} ReplacementsZeroIff(s: string)
    ensures Replacements(s) == 0 <==> !HasPair(s)
    decreases |s|
  {
    if |s| < 2 {
      assert forall i :: !PairAt(s, i);
    } else if s[0] == '\n' && s[1] == '\n' {
      assert PairAt(s, 0);
    } else {
      ReplacementsZeroIff(s[1..]);
      if HasPair(s) {
        var i :| 0 <= i < |s| && PairAt(s, i);
        assert i > 0;
        assert PairAt(s[1..], i - 1);
      }
      if HasPair(s[1..]) {
        var i :| 0 <= i < |s[1..]| && PairAt(s[1..], i);
        assert PairAt(s, i + 1);
      }
    }
  }

  /** A text is returned unchanged exactly when it holds no "\n\n". */
  lemma {:induction false} CollapseUnchangedIff(s: string)
    ensures Collapse(s) == s <==> !HasPair(s)
    decreases |s|
  {
    CollapseLength(s);
    ReplacementsZeroIff(s);
    if !HasPair(s) && |s| >= 2 {
      assert !PairAt(s, 0);
      NoPairTail(s, 1);
      CollapseUnchangedIff(s[1..]);
      assert [s[0]] + s[1..] == s;
    }
  }

  /** Only newlines are removed: all other characters keep their order. */
  lemma {:induction false} CollapseKeepsOtherCharacters(s: string)
    ensures NonNewlines(Collapse(s)) == NonNewlines(s)
    decreases |s|
  {
    if |s| < 2 {
    } else if s[0] == '\n' && s[1] == '\n' {
      CollapseKeepsOtherCharacters(s[2..]);
      assert s[1..][1..] == s[2..];
      assert ("\n" + Collapse(s[2..]))[1..] == Collapse(s[2..]);
    } else {
      CollapseKeepsOtherCharacters(s[1..]);
      assert ([s[0]] + Collapse(s[1..]))[1..] == Collapse(s[1..]);
    }
  }

  /** Collapse keeps the first character's newline-ness. */
  lemma {:induction false} CollapseHead(s: string)
    requires s != []
    ensures Collapse(s) != [] && (Collapse(s)[0] == '\n' <==> s[0] == '\n')
  {
  }

  lemma NoPairCons(c: char, s: string)
    requires !HasPair(s)
    requires c != '\n' || s == [] || s[0] != '\n'
    ensures !HasPair([c] + s)
  {
    if HasPair([c] + s) {
      var i :| 0 <= i < |[c] + s| && PairAt([c] + s, i);
      if i > 0 {
        assert PairAt(s, i - 1);
      }
    }
  }

  /** When the text never has three newlines in a row, the result holds no
      "\n\n" at all. */
  lemma {:induction false} CollapseRemovesPairsWithoutTriples(s: string)
    requires !HasTriple(s)
    ensures !HasPair(Collapse(s))
    decreases |s|
  {
    if |s| < 2 {
      assert forall i :: !PairAt(Collapse(s), i);
    } else {
      var k := if s[0] == '\n' && s[1] == '\n' then 2 else 1;
      var rest := s[k..];
      if HasTriple(rest) {
        var i :| 0 <= i < |rest| && TripleAt(rest, i);
        assert TripleAt(s, i + k);
      }
      CollapseRemovesPairsWithoutTriples(rest);
      if k == 2 {
        assert !TripleAt(s, 0);
        if rest != [] {
          CollapseHead(rest);
        }
        NoPairCons('\n', Collapse(rest));
      } else {
        if rest != [] {
          CollapseHead(rest);
        }
        NoPairCons(s[0], Collapse(rest));
      }
    }
  }

  /** Three newlines in a row become two: the result may still hold "\n\n". */
  lemma ThreeNewlinesBecomeTwo()
    ensures Collapse("\n\n\n") == "\n\n"
    ensures HasPair(Collapse("\n\n\n"))
  {
    assert PairAt("\n\n", 0);
  }

  /** A prefix without newlines passes through untouched. */
  lemma {:induction false} CollapseNewlineFreePrefix(a: string, b: string)
    requires forall i :: 0 <= i < |a| ==> a[i] != '\n'
    ensures Collapse(a + b) == a + Collapse(b)
  {
    if a != [] {
      var t := a + b;
      assert t[1..] == a[1..] + b;
      CollapseNewlineFreePrefix(a[1..], b);
      if |t| >= 2 {
        assert Collapse(t) == [a[0]] + (a[1..] + Collapse(b));
        assert [a[0]] + (a[1..] + Collapse(b)) == [a[0]] + a[1..] + Collapse(b);
        assert a == [a[0]] + a[1..];
      } else {
        assert b == [] && Collapse(b) == [];
        assert t == a && a + Collapse(b) == a;
      }
    } else {
      assert a + b == b && a + Collapse(b) == Collapse(b);
    }
  }

  /** A blank line at the front of newline-free text becomes one break. */
  lemma BlankLineFront(tail: string)
    requires forall i :: 0 <= i < |tail| ==> tail[i] != '\n'
    ensures Collapse("\n\n" + tail) == "\n" + tail
  {
    var rest := "\n\n" + tail;
    assert rest[2..] == tail;
    CollapseNewlineFreePrefix(tail, []);
    assert tail + [] == tail;
  }

  /** A line break written as a blank line ("O hallowed moon,\n\nshine you
      the iron path!") comes back as a single break. */
  lemma BlankLineBecomesBreak(head: string, tail: string)
    requires forall i :: 0 <= i < |head| ==> head[i] != '\n'
    requires forall i :: 0 <= i < |tail| ==> tail[i] != '\n'
    ensures Collapse(head + "\n\n" + tail) == head + "\n" + tail
  {
    assert head + "\n\n" + tail == head + ("\n\n" + tail);
    CollapseNewlineFreePrefix(head, "\n\n" + tail);
    BlankLineFront(tail);
    assert head + ("\n" + tail) == head + "\n" + tail;
  }
}
