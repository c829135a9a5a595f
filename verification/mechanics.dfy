/**
 * The mechanic table: the fourteen quotes of the encounter script, the
 * mechanics each one announces, the strings built from the user's labels,
 * and the dictionary from localized quote text to mechanic string that
 * LoadQuotesDictionary builds.
 */
module Mechanics {
  import opened Wrappers
  import opened Quotes
  import opened Settings

  datatype Mechanic = Dynamo | Chariot | Beam | Dive | MeteorStream

  /** One line of the script: a quote id and the mechanics it announces, in order. */
  datatype ScriptLine = ScriptLine(id: int, mechanics: seq<Mechanic>)

  /** The script, in the order the dictionary is filled. */
  const Script: seq<ScriptLine> := [
    ScriptLine(6492, [Dynamo, Chariot]),   // phase 2, Nael
    ScriptLine(6493, [Dynamo, Beam]),
    ScriptLine(6494, [Beam, Chariot]),
    ScriptLine(6495, [Beam, Dynamo]),
    ScriptLine(6496, [Dive, Chariot]),
    ScriptLine(6497, [Dive, Dynamo]),
    ScriptLine(6500, [MeteorStream, Dive]),
    ScriptLine(6501, [Dive, Beam]),
    ScriptLine(6502, [Dive, Dynamo, MeteorStream]),   // phase 3, Bahamut Prime
    ScriptLine(6503, [Dynamo, Dive, MeteorStream]),
    ScriptLine(6504, [Chariot, Beam, Dive]),          // phase 4, adds
    ScriptLine(6505, [Chariot, Dive, Beam]),
    ScriptLine(6506, [Dynamo, Dive, Beam]),
    ScriptLine(6507, [Dynamo, Chariot, Dive])
  ]

  function Label(labels: Labels, m: Mechanic): string
  {
    match m
    case Dynamo => labels.dynamo
    case Chariot => labels.chariot
    case Beam => labels.beam
    case Dive => labels.dive
    case MeteorStream => labels.meteorStream
  }

  /** The parts joined as the interpolated string "{a} {sep} {b} {sep} {c}" does. */
  function Join(parts: seq<string>, sep: string): string
  {
    if parts == [] then ""
    else if |parts| == 1 then parts[0]
    else parts[0] + " " + sep + " " + Join(parts[1..], sep)
  }

  /** The user's label for each mechanic, in order. */
  function LabelsOf(labels: Labels, mechanics: seq<Mechanic>): (r: seq<string>)
    ensures |r| == |mechanics|
    ensures forall i :: 0 <= i < |r| ==> r[i] == Label(labels, mechanics[i])
  {
    if mechanics == [] then [] else [Label(labels, mechanics[0])] + LabelsOf(labels, mechanics[1..])
  }

  function Format(labels: Labels, mechanics: seq<Mechanic>): (r: string)
    ensures |mechanics| == 1 ==> r == Label(labels, mechanics[0])
  {
    Join(LabelsOf(labels, mechanics), labels.separator)
  }

  /** A dictionary entry; the dictionary is its entries in insertion order. */
  datatype Entry = Entry(key: string, value: string)

  function Keys(table: seq<Entry>): (r: seq<string>)
    ensures |r| == |table| && forall i :: 0 <= i < |table| ==> r[i] == table[i].key
  {
    seq(|table|, i requires 0 <= i < |table| => table[i].key)
  }

  predicate DistinctKeys(table: seq<Entry>)
  {
    forall i, j :: 0 <= i < j < |table| ==> table[i].key != table[j].key
  }

  /** Why the dictionary cannot be built: a script id missing from the catalog
      (the source then reads a null text) or two quotes with the same
      localized text (the dictionary initializer rejects the second). */
  datatype TableError = QuoteNotFound(id: int) | DuplicateKey(key: string)

  /** The collection initializer: for each script line in order, look the
      text up, build the mechanic string and add the pair. */
  function BuildFrom(catalog: seq<Quote>, lang: Language, labels: Labels,
                     lines: seq<ScriptLine>, acc: seq<Entry>): (r: Result<seq<Entry>, TableError>)
    ensures r.Ok? ==> |r.value| == |acc| + |lines| && r.value[..|acc|] == acc
    decreases |lines|
  {
    if lines == [] then Ok(acc)
    else match GetQuote(catalog, lang, lines[0].id)
      case None => Err(QuoteNotFound(lines[0].id))
      case Some(key) =>
        if key in Keys(acc) then Err(DuplicateKey(key))
        else BuildFrom(catalog, lang, labels, lines[1..],
                       acc + [Entry(key, Format(labels, lines[0].mechanics))])
  }

  function BuildTable(catalog: seq<Quote>, lang: Language, labels: Labels): (r: Result<seq<Entry>, TableError>)
    ensures r.Ok? ==> |r.value| == |Script|
  {
    BuildFrom(catalog, lang, labels, Script, [])
  }

  /** Every script id has a record in the catalog. */
  predicate AllFound(catalog: seq<Quote>, lang: Language, lines: seq<ScriptLine>)
  {
    forall i :: 0 <= i < |lines| ==> GetQuote(catalog, lang, lines[i].id).Some?
  }

  /** The entries the script asks for: each line's localized text paired with
      its mechanic string. */
  function Expected(catalog: seq<Quote>, lang: Language, labels: Labels,
                    lines: seq<ScriptLine>): (r: seq<Entry>)
    requires AllFound(catalog, lang, lines)
    ensures |r| == |lines|
    ensures forall i :: 0 <= i < |lines| ==>
              r[i] == Entry(GetQuote(catalog, lang, lines[i].id).value,
                            Format(labels, lines[i].mechanics))
  {
    seq(|lines|, i requires 0 <= i < |lines| =>
          Entry(GetQuote(catalog, lang, lines[i].id).value, Format(labels, lines[i].mechanics)))
  }

  lemma AllFoundCons(catalog: seq<Quote>, lang: Language, lines: seq<ScriptLine>)
    requires lines != []
    ensures AllFound(catalog, lang, lines) <==>
              GetQuote(catalog, lang, lines[0].id).Some? && AllFound(catalog, lang, lines[1..])
  {
    if GetQuote(catalog, lang, lines[0].id).Some? && AllFound(catalog, lang, lines[1..]) {
      forall i | 0 <= i < |lines| ensures GetQuote(catalog, lang, lines[i].id).Some? {
        if i > 0 { assert lines[i] == lines[1..][i - 1]; }
      }
    }
  }

  lemma ExpectedCons(catalog: seq<Quote>, lang: Language, labels: Labels, lines: seq<ScriptLine>)
    requires lines != [] && AllFound(catalog, lang, lines)
    ensures AllFound(catalog, lang, lines[1..])
    ensures Expected(catalog, lang, labels, lines)
         == [Entry(GetQuote(catalog, lang, lines[0].id).value, Format(labels, lines[0].mechanics))]
            + Expected(catalog, lang, labels, lines[1..])
  {
    AllFoundCons(catalog, lang, lines);
  }

  lemma AppendAssociates(a: seq<Entry>, b: seq<Entry>, c: seq<Entry>)
    ensures a + (b + c) == (a + b) + c
  {
  }

  lemma {:induction false} BuildFromCorrect(catalog: seq<Quote>, lang: Language, labels: Labels,
                                            lines: seq<ScriptLine>, acc: seq<Entry>)
    requires DistinctKeys(acc)
    ensures BuildFrom(catalog, lang, labels, lines, acc).Ok? <==>
              AllFound(catalog, lang, lines) &&
              DistinctKeys(acc + Expected(catalog, lang, labels, lines))
    ensures BuildFrom(catalog, lang, labels, lines, acc).Ok? ==>
              AllFound(catalog, lang, lines) &&
              BuildFrom(catalog, lang, labels, lines, acc).value
                == acc + Expected(catalog, lang, labels, lines)
    decreases |lines|
  {
    if lines == [] {
      assert AllFound(catalog, lang, lines);
      assert acc + Expected(catalog, lang, labels, lines) == acc;
    } else {
      AllFoundCons(catalog, lang, lines);
      var q := GetQuote(catalog, lang, lines[0].id);
      if q.Some? {
        var e := Entry(q.value, Format(labels, lines[0].mechanics));
        if q.value in Keys(acc) {
          var k :| 0 <= k < |acc| && acc[k].key == q.value;
          if AllFound(catalog, lang, lines) {
            ExpectedCons(catalog, lang, labels, lines);
            var all := acc + Expected(catalog, lang, labels, lines);
            assert all[k].key == all[|acc|].key;
          }
        } else {
          var acc' := acc + [e];
          assert DistinctKeys(acc');
          BuildFromCorrect(catalog, lang, labels, lines[1..], acc');
          if AllFound(catalog, lang, lines) {
            ExpectedCons(catalog, lang, labels, lines);
            var rest := Expected(catalog, lang, labels, lines[1..]);
            AppendAssociates(acc, [e], rest);
          }
        }
      }
    }
  }

  /** The dictionary is built exactly when every script id is in the catalog
      and the fourteen localized texts differ; it then holds one entry per
      script line, in script order. */
  lemma BuildTableCorrect(catalog: seq<Quote>, lang: Language, labels: Labels)
    ensures BuildTable(catalog, lang, labels).Ok? <==>
              AllFound(catalog, lang, Script) &&
              DistinctKeys(Expected(catalog, lang, labels, Script))
    ensures BuildTable(catalog, lang, labels).Ok? ==>
              var table := BuildTable(catalog, lang, labels).value;
              |table| == |Script| == 14 && DistinctKeys(table) &&
              forall i :: 0 <= i < |Script| ==>
                Some(table[i].key) == GetQuote(catalog, lang, Script[i].id) &&
                table[i].value == Format(labels, Script[i].mechanics)
  {
    BuildFromCorrect(catalog, lang, labels, Script, []);
    if AllFound(catalog, lang, Script) {
      var ex := Expected(catalog, lang, labels, Script);
      assert [] + ex == ex;
    }
  }

  /** Entry k of a built dictionary is script line k's text and mechanic string. */
  lemma BuiltEntry(catalog: seq<Quote>, lang: Language, labels: Labels, table: seq<Entry>, k: nat)
    requires BuildTable(catalog, lang, labels) == Ok(table) && k < |table|
    ensures k < |Script| && GetQuote(catalog, lang, Script[k].id) == Some(table[k].key)
    ensures table[k].value == Format(labels, Script[k].mechanics)
  {
    BuildTableCorrect(catalog, lang, labels);
  }

  /** The labels only decide the values: whether the dictionary can be built,
      and its keys, depend on the catalog and the language alone. */
  lemma RebuildKeepsKeys(catalog: seq<Quote>, lang: Language, labels: Labels, labels': Labels)
    ensures BuildTable(catalog, lang, labels).Ok? <==> BuildTable(catalog, lang, labels').Ok?
    ensures BuildTable(catalog, lang, labels).Ok? ==>
              Keys(BuildTable(catalog, lang, labels).value) == Keys(BuildTable(catalog, lang, labels').value)
  {
    BuildTableCorrect(catalog, lang, labels);
    BuildTableCorrect(catalog, lang, labels');
    if AllFound(catalog, lang, Script) {
      ExpectedKeysIgnoreLabels(catalog, lang, labels, labels', Script);
    }
  }

  lemma ExpectedKeysIgnoreLabels(catalog: seq<Quote>, lang: Language, labels: Labels, labels': Labels,
                                 lines: seq<ScriptLine>)
    requires AllFound(catalog, lang, lines)
    ensures Keys(Expected(catalog, lang, labels, lines)) == Keys(Expected(catalog, lang, labels', lines))
    ensures DistinctKeys(Expected(catalog, lang, labels, lines)) <==>
            DistinctKeys(Expected(catalog, lang, labels', lines))
  {
    var e, e' := Expected(catalog, lang, labels, lines), Expected(catalog, lang, labels', lines);
    assert Keys(e) == Keys(e');
    SameKeysSameDistinct(e, e');
  }

  lemma SameKeysSameDistinct(t: seq<Entry>, t': seq<Entry>)
    requires Keys(t) == Keys(t')
    ensures DistinctKeys(t) <==> DistinctKeys(t')
  {
    assert forall i :: 0 <= i < |t| ==> t[i].key == Keys(t)[i] == t'[i].key;
  }

  /** Two mechanics read "{a} {sep} {b}". */
  lemma FormatTwo(labels: Labels, a: Mechanic, b: Mechanic)
    ensures Format(labels, [a, b]) == Label(labels, a) + " " + labels.separator + " " + Label(labels, b)
  {
    var parts := LabelsOf(labels, [a, b]);
    assert parts == [Label(labels, a), Label(labels, b)];
    assert parts[1..] == [Label(labels, b)];
    assert Join(parts[1..], labels.separator) == Label(labels, b);
  }

  /** Three mechanics read "{a} {sep} {b} {sep} {c}". */
  lemma FormatThree(labels: Labels, a: Mechanic, b: Mechanic, c: Mechanic)
    ensures Format(labels, [a, b, c])
         == Label(labels, a) + " " + labels.separator + " " + Label(labels, b) + " "
            + labels.separator + " " + Label(labels, c)
  {
    assert LabelsOf(labels, [a, b, c]) == [Label(labels, a), Label(labels, b), Label(labels, c)];
    JoinThree(Label(labels, a), Label(labels, b), Label(labels, c), labels.separator);
  }

  lemma JoinThree(x: string, y: string, z: string, sep: string)
    ensures Join([x, y, z], sep) == x + " " + sep + " " + y + " " + sep + " " + z
  {
    var parts := [x, y, z];
    assert parts[1..] == [y, z] && parts[1..][1..] == [z];
    var p := x + " " + sep + " ";
    var w := y + " " + sep + " ";
    assert Join(parts[1..][1..], sep) == z;
    assert Join(parts[1..], sep) == w + z;
    assert Join(parts, sep) == p + (w + z);
    StringAssociates(p, w, z);
    StringAssociates(p, y + " " + sep, " ");
    StringAssociates(p, y + " ", sep);
    StringAssociates(p, y, " ");
  }

  lemma StringAssociates(a: string, b: string, c: string)
    ensures a + (b + c) == a + b + c
  {
  }

  /** The script has one line per listed id, the ids are distinct, the eight
      phase-2 lines name two mechanics and the six later lines three. */
  lemma ScriptShape()
    ensures |Script| == 14
    ensures forall i, j :: 0 <= i < j < |Script| ==> Script[i].id != Script[j].id
    ensures forall i :: 0 <= i < 8 ==> |Script[i].mechanics| == 2
    ensures forall i :: 8 <= i < 14 ==> |Script[i].mechanics| == 3
  {
  }

  /** The mechanic string of every script line, spelled out as the
      interpolated strings of the dictionary initializer. */
  lemma ScriptStrings(l: Labels)
    ensures Script[0].id == 6492 && Format(l, Script[0].mechanics) == l.dynamo + " " + l.separator + " " + l.chariot
    ensures Script[1].id == 6493 && Format(l, Script[1].mechanics) == l.dynamo + " " + l.separator + " " + l.beam
    ensures Script[2].id == 6494 && Format(l, Script[2].mechanics) == l.beam + " " + l.separator + " " + l.chariot
    ensures Script[3].id == 6495 && Format(l, Script[3].mechanics) == l.beam + " " + l.separator + " " + l.dynamo
    ensures Script[4].id == 6496 && Format(l, Script[4].mechanics) == l.dive + " " + l.separator + " " + l.chariot
    ensures Script[5].id == 6497 && Format(l, Script[5].mechanics) == l.dive + " " + l.separator + " " + l.dynamo
    ensures Script[6].id == 6500 && Format(l, Script[6].mechanics) == l.meteorStream + " " + l.separator + " " + l.dive
    ensures Script[7].id == 6501 && Format(l, Script[7].mechanics) == l.dive + " " + l.separator + " " + l.beam
    ensures Script[8].id == 6502 && Format(l, Script[8].mechanics) == l.dive + " " + l.separator + " " + l.dynamo + " " + l.separator + " " + l.meteorStream
    ensures Script[9].id == 6503 && Format(l, Script[9].mechanics) == l.dynamo + " " + l.separator + " " + l.dive + " " + l.separator + " " + l.meteorStream
    ensures Script[10].id == 6504 && Format(l, Script[10].mechanics) == l.chariot + " " + l.separator + " " + l.beam + " " + l.separator + " " + l.dive
    ensures Script[11].id == 6505 && Format(l, Script[11].mechanics) == l.chariot + " " + l.separator + " " + l.dive + " " + l.separator + " " + l.beam
    ensures Script[12].id == 6506 && Format(l, Script[12].mechanics) == l.dynamo + " " + l.separator + " " + l.dive + " " + l.separator + " " + l.beam
    ensures Script[13].id == 6507 && Format(l, Script[13].mechanics) == l.dynamo + " " + l.separator + " " + l.chariot + " " + l.separator + " " + l.dive
  {
    FormatTwo(l, Dynamo, Chariot);
    FormatTwo(l, Dynamo, Beam);
    FormatTwo(l, Beam, Chariot);
    FormatTwo(l, Beam, Dynamo);
    FormatTwo(l, Dive, Chariot);
    FormatTwo(l, Dive, Dynamo);
    FormatTwo(l, MeteorStream, Dive);
    FormatTwo(l, Dive, Beam);
    FormatThree(l, Dive, Dynamo, MeteorStream);
    FormatThree(l, Dynamo, Dive, MeteorStream);
    FormatThree(l, Chariot, Beam, Dive);
    FormatThree(l, Chariot, Dive, Beam);
    FormatThree(l, Dynamo, Dive, Beam);
    FormatThree(l, Dynamo, Chariot, Dive);
  }
}
