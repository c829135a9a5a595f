/**
 * Chat messages as the chat hook sees them: a chat type and a message made
 * of payloads, some of which carry text.
 */
module Chat {
  import opened Wrappers
  import opened Mechanics
  import opened Matcher

  /** The chat types; only NPC dialogue announcements are rewritten. */
  datatype ChatType = NPCDialogueAnnouncements | OtherChatType(code: int)

  /** A message payload: a text payload whose text may be null, or any other
      kind of payload (icons, links, colours, ...), left opaque. */
  datatype Payload = TextPayload(text: Option<string>) | OtherPayload(kind: int)

  /** One payload after the hook: text that is present goes through NaelIt. */
  function RewritePayload(p: Payload, table: seq<Entry>, scorer: Scorer): (r: Payload)
    ensures r.TextPayload? <==> p.TextPayload?
    ensures r.TextPayload? ==> (r.text.None? <==> p.text.None?)
    ensures r.OtherPayload? ==> r == p
  {
    match p
    case TextPayload(Some(t)) => TextPayload(Some(NaelIt(table, scorer, t)))
    case _ => p
  }

  /** Every payload of a message after the hook, in order. */
  function Rewritten(ps: seq<Payload>, table: seq<Entry>, scorer: Scorer): (r: seq<Payload>)
    ensures |r| == |ps|
  {
    if ps == [] then [] else [RewritePayload(ps[0], table, scorer)] + Rewritten(ps[1..], table, scorer)
  }

  lemma {:induction false} RewrittenAt(ps: seq<Payload>, table: seq<Entry>, scorer: Scorer, i: nat)
    requires i < |ps|
    ensures |Rewritten(ps, table, scorer)| == |ps|
    ensures Rewritten(ps, table, scorer)[i] == RewritePayload(ps[i], table, scorer)
  {
    if i > 0 {
      RewrittenAt(ps[1..], table, scorer, i - 1);
    } else if |ps| > 1 {
      RewrittenAt(ps[1..], table, scorer, 0);
    }
  }

  /** The rewrite keeps the number and order of payloads and their kinds;
      non-text payloads and null texts are untouched; every present text t
      becomes NaelIt(t). */
  lemma RewrittenSpec(ps: seq<Payload>, table: seq<Entry>, scorer: Scorer)
    ensures |Rewritten(ps, table, scorer)| == |ps|
    ensures forall i :: 0 <= i < |ps| ==>
              (Rewritten(ps, table, scorer)[i].TextPayload? <==> ps[i].TextPayload?)
    ensures forall i :: 0 <= i < |ps| && (ps[i].OtherPayload? || ps[i].text.None?) ==>
              Rewritten(ps, table, scorer)[i] == ps[i]
    ensures forall i :: 0 <= i < |ps| && ps[i].TextPayload? && ps[i].text.Some? ==>
              Rewritten(ps, table, scorer)[i] == TextPayload(Some(NaelIt(table, scorer, ps[i].text.value)))
  {
    if ps != [] {
      RewrittenAt(ps, table, scorer, 0);
    }
    forall i | 0 <= i < |ps| ensures Rewritten(ps, table, scorer)[i] == RewritePayload(ps[i], table, scorer) {
      RewrittenAt(ps, table, scorer, i);
    }
  }

  /** A message in which no text matches any quote well enough comes out as it went in. */
  lemma RewrittenNoMatch(ps: seq<Payload>, table: seq<Entry>, scorer: Scorer)
    requires forall i, j :: 0 <= i < |ps| && ps[i].TextPayload? && ps[i].text.Some? && 0 <= j < |table| ==>
               scorer(ps[i].text.value, table[j].key) < Threshold
    ensures Rewritten(ps, table, scorer) == ps
  {
    RewrittenSpec(ps, table, scorer);
    forall i | 0 <= i < |ps| && ps[i].TextPayload? && ps[i].text.Some?
      ensures NaelIt(table, scorer, ps[i].text.value) == ps[i].text.value
    {
      NaelItChoosesBest(table, scorer, ps[i].text.value);
    }
  }
}
