/** The webhook boundary: provider event names to call states (providers/base.py). Names are ASCII. */
module EventNames {
  import opened Domain

  function UpperChar(c: char): char {
    if 'a' <= c <= 'z' then (c as int - 32) as char else c
  }

  function Upper(s: string): (r: string)
    ensures |r| == |s| && forall i :: 0 <= i < |r| ==> r[i] == UpperChar(s[i])
  {
    if s == "" then "" else [UpperChar(s[0])] + Upper(s[1..])
  }

  function MapProviderEvent(raw: string): string {
    if raw == "ringing" then "RINGING"
    else if raw == "answered" then "ANSWERED"
    else if raw == "completed" then "COMPLETED"
    else if raw == "failed" || raw == "busy" || raw == "no-answer" then "FAILED"
    else Upper(raw)
  }

  /** The enum constructor; None is its ValueError. */
  function ParseCallState(s: string): Option<CallState> {
    if s == "QUEUED" then Some(CallState.Queued)
    else if s == "RESERVED" then Some(CallState.Reserved)
    else if s == "INITIATED" then Some(CallState.Initiated)
    else if s == "RINGING" then Some(CallState.Ringing)
    else if s == "ANSWERED" then Some(CallState.Answered)
    else if s == "CONNECTED" then Some(CallState.Connected)
    else if s == "COMPLETED" then Some(CallState.Completed)
    else if s == "FAILED" then Some(CallState.Failed)
    else if s == "CANCELLED" then Some(CallState.Cancelled)
    else if s == "ABANDONED" then Some(CallState.Abandoned)
    else None
  }

  function Incoming(etype: string): Option<CallState> {
    ParseCallState(MapProviderEvent(etype))
  }

  predicate NoLower(s: string) { forall i :: 0 <= i < |s| ==> !('a' <= s[i] <= 'z') }

  lemma {:induction false} UpperOfUpper(s: string)
    requires NoLower(s)
    ensures Upper(s) == s
  {
    if s != "" {
      UpperOfUpper(s[1..]);
    }
  }

  lemma NoLowerIsUnmapped(s: string)
    requires NoLower(s)
    ensures MapProviderEvent(s) == s
  {
    UpperOfUpper(s);
    hide Upper;
    if s != "" {
      assert s[0] !in ['r', 'a', 'c', 'f', 'b', 'n'];
    }
  }

  /** Mapping is idempotent, so a name mapped once by the sender and again by the applier is safe. */
  lemma MapTwiceIsMapOnce(raw: string)
    ensures MapProviderEvent(MapProviderEvent(raw)) == MapProviderEvent(raw)
  {
    MappedHasNoLower(raw);
    hide MapProviderEvent;
    NoLowerIsUnmapped(MapProviderEvent(raw));
  }

  lemma MappedHasNoLower(raw: string)
    ensures NoLower(MapProviderEvent(raw))
  {
    assert NoLower("RINGING") && NoLower("ANSWERED") && NoLower("COMPLETED") && NoLower("FAILED");
    assert NoLower(Upper(raw));
  }

  /** Unmapped names are parsed as they stand. */
  lemma IncomingOfUpper(s: string)
    requires NoLower(s)
    ensures Incoming(s) == ParseCallState(s)
  {
    NoLowerIsUnmapped(s);
    hide MapProviderEvent, ParseCallState;
  }

  lemma ParsesRingingAndFailed()
    ensures ParseCallState("RINGING") == Some(CallState.Ringing)
    ensures ParseCallState("FAILED") == Some(CallState.Failed)
  {
    assert |"RINGING"| == 7 && |"FAILED"| == 6 && "FAILED"[0] == 'F';
  }

  lemma ParsesAnswered()
    ensures ParseCallState("ANSWERED") == Some(CallState.Answered)
  {
    assert |"ANSWERED"| == 8 && "ANSWERED"[0] == 'A';
  }

  lemma ParsesCompleted()
    ensures ParseCallState("COMPLETED") == Some(CallState.Completed)
  {
    assert |"COMPLETED"| == 9 && "COMPLETED"[0] == 'C' && "COMPLETED"[2] == 'M';
  }

  /** The four names the mock providers send. */
  lemma SentNames()
    ensures Incoming("RINGING") == Some(CallState.Ringing) && Incoming("ANSWERED") == Some(CallState.Answered)
    ensures Incoming("COMPLETED") == Some(CallState.Completed) && Incoming("FAILED") == Some(CallState.Failed)
  {
    hide ParseCallState, Incoming;
    ParsesRingingAndFailed();
    ParsesAnswered();
    ParsesCompleted();
    IncomingOfUpper("RINGING");
    IncomingOfUpper("ANSWERED");
    IncomingOfUpper("COMPLETED");
    IncomingOfUpper("FAILED");
  }

  // ---- every name

  /** The text of a state, as the enum prints it. */
  function NameOf(s: CallState): string {
    match s
    case Queued => "QUEUED" case Reserved => "RESERVED" case Initiated => "INITIATED" case Ringing => "RINGING"
    case Answered => "ANSWERED" case Connected => "CONNECTED" case Completed => "COMPLETED" case Failed => "FAILED"
    case Cancelled => "CANCELLED" case Abandoned => "ABANDONED"
  }

  /** A text parses to a state exactly if it is that state's name. */
  lemma ParsesExactlyTheNames(s: string, state: CallState)
    ensures ParseCallState(s) == Some(state) <==> s == NameOf(state)
  {
    NamesDiffer();
  }

  lemma NamesDiffer()
    ensures forall x, y :: NameOf(x) == NameOf(y) ==> x == y
  {
    forall x, y | NameOf(x) == NameOf(y) ensures x == y {
      assert NameOf(x)[0] == NameOf(y)[0] && |NameOf(x)| == |NameOf(y)| && NameOf(x)[2] == NameOf(y)[2];
    }
  }

  /** The same letters, whatever their case. */
  predicate Spells(raw: string, name: string) {
    && |raw| == |name|
    && forall i :: 0 <= i < |raw| ==>
      raw[i] == name[i] || ('A' <= name[i] <= 'Z' && raw[i] as int == name[i] as int + 32)
  }

  predicate Mapped(raw: string) {
    || raw == "ringing" || raw == "answered" || raw == "completed"
    || raw == "failed" || raw == "busy" || raw == "no-answer"
  }

  lemma UpperSpells(raw: string, name: string)
    requires forall i :: 0 <= i < |name| ==> 'A' <= name[i] <= 'Z'
    ensures Upper(raw) == name <==> Spells(raw, name)
  {
    if |raw| == |name| {
      forall i | 0 <= i < |raw|
        ensures UpperChar(raw[i]) == name[i] <==> raw[i] == name[i] || raw[i] as int == name[i] as int + 32
      {
      }
      if Spells(raw, name) {
        assert forall i :: 0 <= i < |raw| ==> Upper(raw)[i] == name[i];
      }
      if Upper(raw) == name {
        assert forall i :: 0 <= i < |raw| ==> UpperChar(raw[i]) == name[i];
      }
    }
  }

  lemma NamesAreCapitals(s: CallState)
    ensures forall i :: 0 <= i < |NameOf(s)| ==> 'A' <= NameOf(s)[i] <= 'Z'
  {
  }

  /** A provider's event: three of its names are progress and three are failures; any other means the
      state whose name it spells, in any case, and nothing if it spells none. */
  lemma WhatEventsMean(raw: string, s: CallState)
    ensures raw == "ringing" ==> Incoming(raw) == Some(CallState.Ringing)
    ensures raw == "answered" ==> Incoming(raw) == Some(CallState.Answered)
    ensures raw == "completed" ==> Incoming(raw) == Some(CallState.Completed)
    ensures raw == "failed" || raw == "busy" || raw == "no-answer" ==> Incoming(raw) == Some(CallState.Failed)
    ensures !Mapped(raw) ==> (Incoming(raw) == Some(s) <==> Spells(raw, NameOf(s)))
  {
    hide ParseCallState, Upper, NameOf, Spells;
    ParsesRingingAndFailed();
    ParsesAnswered();
    ParsesCompleted();
    if !Mapped(raw) {
      assert MapProviderEvent(raw) == Upper(raw);
      ParsesExactlyTheNames(Upper(raw), s);
      NamesAreCapitals(s);
      UpperSpells(raw, NameOf(s));
    }
  }
}
