/**
 * NaelIt: the fuzzy match of a chat line against the dictionary's keys.
 * The similarity scorer is a foreign library and is passed in as a function
 * from (query, choice) to a score between 0 and 100; nothing else is
 * assumed about it.
 */
module Matcher {
  import opened Wrappers
  import opened Quotes
  import opened Settings
  import opened Mechanics

  type Score = s: int | 0 <= s <= 100

  type Scorer = (string, string) -> Score

  /** A line replaces the chat text when its best score reaches this. */
  const Threshold: Score := 85

  /** The choice ExtractOne returns and its score. */
  datatype Match = Match(value: string, score: Score)

  /** Process.ExtractOne: a choice with the highest score, none when there are
      no choices. Among equal scores the earliest choice wins. */
  function ExtractOne(query: string, choices: seq<string>, scorer: Scorer): (r: Option<Match>)
    ensures r.None? <==> choices == []
    ensures r.Some? ==> r.value.value in choices && r.value.score == scorer(query, r.value.value)
    ensures r.Some? ==> forall i :: 0 <= i < |choices| ==> scorer(query, choices[i]) <= r.value.score
  {
    if choices == [] then None
    else
      var rest := ExtractOne(query, choices[1..], scorer);
      var here := scorer(query, choices[0]);
      if rest.None? || here >= rest.value.score then Some(Match(choices[0], here))
      else rest
  }

  /** The dictionary indexer: the value of the first entry with the key. */
  function Lookup(table: seq<Entry>, key: string): (r: string)
    requires key in Keys(table)
    ensures exists i :: 0 <= i < |table| && table[i].key == key && table[i].value == r
  {
    if table[0].key == key then table[0].value
    else
      assert Keys(table[1..]) == Keys(table)[1..];
      Lookup(table[1..], key)
  }

  /** The chat line, or the mechanic string of the best-scoring quote when
      that score is at least the threshold. */
  function NaelIt(table: seq<Entry>, scorer: Scorer, input: string): (r: string)
    ensures r == input || exists i :: 0 <= i < |table| && r == table[i].value
  {
    var m := ExtractOne(input, Keys(table), scorer);
    if m.Some? && m.value.score >= Threshold then Lookup(table, m.value.value) else input
  }

  /** Below the threshold everywhere (or an empty dictionary), the line is kept;
      otherwise it becomes the value of a key that scores highest, and that
      score reaches the threshold. */
  lemma NaelItChoosesBest(table: seq<Entry>, scorer: Scorer, input: string)
    ensures (forall i :: 0 <= i < |table| ==> scorer(input, table[i].key) < Threshold) ==>
              NaelIt(table, scorer, input) == input
    ensures (exists i :: 0 <= i < |table| && scorer(input, table[i].key) >= Threshold) ==>
              exists i :: 0 <= i < |table| && NaelIt(table, scorer, input) == table[i].value &&
                Threshold <= scorer(input, table[i].key) &&
                forall j :: 0 <= j < |table| ==> scorer(input, table[j].key) <= scorer(input, table[i].key)
  {
    var keys := Keys(table);
    var m := ExtractOne(input, keys, scorer);
    if m.Some? {
      var k :| 0 <= k < |keys| && keys[k] == m.value.value;
      if m.value.score < Threshold {
        assert forall i :: 0 <= i < |table| ==> scorer(input, table[i].key) < Threshold by {
          forall i | 0 <= i < |table| ensures scorer(input, table[i].key) < Threshold {
            assert keys[i] == table[i].key;
          }
        }
      } else {
        var r := Lookup(table, m.value.value);
        var i :| 0 <= i < |table| && table[i].key == m.value.value && table[i].value == r;
        forall j | 0 <= j < |table| ensures scorer(input, table[j].key) <= scorer(input, table[i].key) {
          assert keys[j] == table[j].key;
        }
      }
    } else {
      assert table == [];
    }
  }

  /** When one key scores strictly highest and reaches the threshold, the line
      becomes exactly that key's value. */
  lemma NaelItUniqueBest(table: seq<Entry>, scorer: Scorer, input: string, k: nat)
    requires k < |table|
    requires Threshold <= scorer(input, table[k].key)
    requires forall j :: 0 <= j < |table| && j != k ==> scorer(input, table[j].key) < scorer(input, table[k].key)
    ensures NaelIt(table, scorer, input) == table[k].value
  {
    NaelItChoosesBest(table, scorer, input);
    var i :| 0 <= i < |table| && NaelIt(table, scorer, input) == table[i].value &&
             Threshold <= scorer(input, table[i].key) &&
             forall j :: 0 <= j < |table| ==> scorer(input, table[j].key) <= scorer(input, table[i].key);
  }

  /** On the dictionary built from the labels: a chat line whose best match is
      the quote of script line k becomes that line's mechanic string. */
  lemma NaelItOnBuiltTable(catalog: seq<Quote>, lang: Language, labels: Labels, table: seq<Entry>,
                           scorer: Scorer, input: string, k: nat)
    requires BuildTable(catalog, lang, labels) == Ok(table)
    requires k < |table| && Threshold <= scorer(input, table[k].key)
    requires forall j :: 0 <= j < |table| && j != k ==> scorer(input, table[j].key) < scorer(input, table[k].key)
    ensures k < |Script| && GetQuote(catalog, lang, Script[k].id) == Some(table[k].key)
    ensures NaelIt(table, scorer, input) == Format(labels, Script[k].mechanics)
  {
    BuiltEntry(catalog, lang, labels, table, k);
    NaelItUniqueBest(table, scorer, input, k);
  }
}
