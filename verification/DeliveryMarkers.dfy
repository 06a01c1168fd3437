/**
 The markers that tie an injected prompt to an outbox row or to a workflow revision:
 printing them, and finding them again in a prompt. A string is the sequence of its
 UTF-16 code units, which is what the program's patterns see.
 */
module DeliveryMarkers {
  import opened Common
  import opened Decimal

  datatype Target = TicketTarget(outboxId: nat) | WorkflowTarget(taskId: string, revision: nat)

  const HEAD := "[CogentNexus-OpenClaw Delivery: "
  const TICKET := "ticket:"
  const WORKFLOW := "workflow:"
  const TICKET_PREFIX := HEAD + TICKET
  const TAG_LIMIT := 96

  predicate IsTagChar(c: char) {
    'A' <= c <= 'Z' || 'a' <= c <= 'z' || IsDigit(c) || c == '_' || c == '-'
  }

  function Dashed(s: string): (r: string)
    ensures |r| == |s| && forall i :: 0 <= i < |s| ==> r[i] == if IsTagChar(s[i]) then s[i] else '-'
  {
    if s == "" then "" else [if IsTagChar(s[0]) then s[0] else '-'] + Dashed(s[1..])
  }

  function CleanTagPart(value: string, limit: nat): string {
    if |value| <= limit then Dashed(value) else Dashed(value)[..limit]
  }

  function TicketMarker(outboxId: nat): string {
    HEAD + TICKET + Print(outboxId) + "]"
  }

  function WorkflowMarker(taskId: string, revision: nat): string {
    HEAD + WORKFLOW + CleanTagPart(taskId, TAG_LIMIT) + ":" + Print(revision) + "]"
  }

  // ---------------------------------------------------------------- finding a marker

  /** The rest of `s` from `i` on, when `prefix` stands there. */
  function Skip(s: string, i: nat, prefix: string): Option<string>
    requires i <= |s|
  {
    if prefix <= s[i..] then Some(s[i + |prefix|..]) else None
  }

  /** Digits, at least one, and a closing bracket. */
  function NumberThenBracket(s: string): Option<nat> {
    var d := Digits(s);
    if d != "" && |d| < |s| && s[|d|] == ']' then Some(Read(d)) else None
  }

  /** The tag characters at the front of a string. */
  function TagRun(s: string): (tag: string)
    ensures tag <= s && forall i :: 0 <= i < |tag| ==> IsTagChar(tag[i])
    ensures |tag| < |s| ==> !IsTagChar(s[|tag|])
  {
    if s != "" && IsTagChar(s[0]) then [s[0]] + TagRun(s[1..]) else ""
  }

  function TicketAt(prefix: string, s: string, i: nat): Option<Target>
    requires i <= |s|
  {
    var rest := Skip(s, i, prefix);
    if rest.None? then None
    else
      var n := NumberThenBracket(rest.value);
      if n.Some? then Some(TicketTarget(n.value)) else None
  }

  function WorkflowAt(s: string, i: nat): Option<Target>
    requires i <= |s|
  {
    var rest := Skip(s, i, HEAD + WORKFLOW);
    if rest.None? then None
    else
      var tag := TagRun(rest.value);
      if 1 <= |tag| <= TAG_LIMIT && |tag| < |rest.value| && rest.value[|tag|] == ':' then
        var n := NumberThenBracket(rest.value[|tag| + 1..]);
        if n.Some? then Some(WorkflowTarget(tag, n.value)) else None
      else None
  }

  /** The leftmost place where a pattern matches. */
  function FirstTicket(prefix: string, s: string, i: nat): Option<Target>
    requires i <= |s|
    decreases |s| - i
  {
    if TicketAt(prefix, s, i).Some? then TicketAt(prefix, s, i)
    else if i == |s| then None
    else FirstTicket(prefix, s, i + 1)
  }

  function FirstWorkflow(s: string, i: nat): Option<Target>
    requires i <= |s|
    decreases |s| - i
  {
    if WorkflowAt(s, i).Some? then WorkflowAt(s, i)
    else if i == |s| then None
    else FirstWorkflow(s, i + 1)
  }

  /** A ticket marker anywhere in the prompt wins over every workflow marker. */
  function Parse(prompt: string): Option<Target> {
    var ticket := FirstTicket(TICKET_PREFIX, prompt, 0);
    if ticket.Some? then ticket else FirstWorkflow(prompt, 0)
  }

  // ---------------------------------------------------------------- ticket markers

  lemma NumberReads(n: nat, rest: string)
    ensures NumberThenBracket(Print(n) + ("]" + rest)) == Some(n)
  {
    DigitsOfNumeral(Print(n), "]" + rest);
    ReadPrint(n);
  }

  lemma SkipPrefix(prefix: string, rest: string)
    ensures Skip(prefix + rest, 0, prefix) == Some(rest)
  {
    assert (prefix + rest)[0..] == prefix + rest;
  }

  /** Whatever follows a ticket marker, the marker is read back as its outbox id. */
  lemma TicketRoundTrip(outboxId: nat, rest: string)
    ensures Parse(TicketMarker(outboxId) + rest) == Some(TicketTarget(outboxId))
  {
    var s := TicketMarker(outboxId) + rest;
    var tail := Print(outboxId) + ("]" + rest);
    assert s == TICKET_PREFIX + tail;
    SkipPrefix(TICKET_PREFIX, tail);
    NumberReads(outboxId, rest);
  }

  // ---------------------------------------------------------------- workflow markers

  lemma NoPrefix(prefix: string, s: string, i: nat, k: nat)
    requires i <= |s| && k < |prefix| && (i + k < |s| ==> s[i + k] != prefix[k])
    ensures !(prefix <= s[i..])
  {
    if i + k < |s| {
      assert s[i..][k] == s[i + k];
    }
  }

  /** No pattern starts where no opening bracket stands. */
  lemma NoTicketWithoutBracket(prefix: string, s: string, i: nat)
    requires prefix != "" && prefix[0] == '[' && i <= |s| && (i < |s| ==> s[i] != '[')
    ensures TicketAt(prefix, s, i).None?
  {
    NoPrefix(prefix, s, i, 0);
  }

  lemma {:induction false} NoTicketFrom(prefix: string, s: string, i: nat)
    requires prefix != "" && prefix[0] == '[' && i <= |s| && forall k :: i <= k < |s| ==> s[k] != '['
    ensures FirstTicket(prefix, s, i).None?
    decreases |s| - i
  {
    NoTicketWithoutBracket(prefix, s, i);
    if i < |s| {
      NoTicketFrom(prefix, s, i + 1);
    }
  }

  /** A workflow marker is not a ticket marker. */
  lemma NotATicket(tail: string)
    ensures TicketAt(TICKET_PREFIX, HEAD + WORKFLOW + tail, 0).None?
  {
    var s := HEAD + WORKFLOW + tail;
    assert TICKET_PREFIX[|HEAD|] == TICKET[0] && s[|HEAD|] == WORKFLOW[0];
    NoPrefix(TICKET_PREFIX, s, 0, |HEAD|);
  }

  lemma {:induction false} TagRunOf(tag: string, rest: string)
    requires forall i :: 0 <= i < |tag| ==> IsTagChar(tag[i])
    requires rest == "" || !IsTagChar(rest[0])
    ensures TagRun(tag + rest) == tag
  {
    if tag == "" {
      assert tag + rest == rest;
    } else {
      assert (tag + rest)[1..] == tag[1..] + rest;
      TagRunOf(tag[1..], rest);
    }
  }

  lemma WorkflowReads(tag: string, revision: nat, rest: string)
    requires 1 <= |tag| <= TAG_LIMIT && forall i :: 0 <= i < |tag| ==> IsTagChar(tag[i])
    ensures WorkflowAt((HEAD + WORKFLOW) + (tag + (":" + (Print(revision) + ("]" + rest)))), 0) ==
            Some(WorkflowTarget(tag, revision))
  {
    NumberReads(revision, rest);
    TagReads(HEAD + WORKFLOW, tag, Print(revision) + ("]" + rest));
  }

  lemma TagReads(prefix: string, tag: string, number: string)
    requires forall i :: 0 <= i < |tag| ==> IsTagChar(tag[i])
    ensures var tail := tag + (":" + number);
            Skip(prefix + tail, 0, prefix) == Some(tail) && TagRun(tail) == tag && tail[|tag|] == ':' && tail[|tag| + 1..] == number
  {
    var tail := tag + (":" + number);
    SkipPrefix(prefix, tail);
    TagRunOf(tag, ":" + number);
  }

  lemma CleanTagShape(value: string)
    requires value != ""
    ensures 1 <= |CleanTagPart(value, TAG_LIMIT)| <= TAG_LIMIT
    ensures forall i :: 0 <= i < |CleanTagPart(value, TAG_LIMIT)| ==> IsTagChar(CleanTagPart(value, TAG_LIMIT)[i])
  {
  }

  predicate Plain(s: string) {
    '[' !in s
  }

  /**
   A workflow marker is read back as its cleaned task and its revision exactly when no ticket
   marker is found in the text that follows it.
   */
  lemma WorkflowRoundTrip(taskId: string, revision: nat, rest: string)
    requires taskId != ""
    ensures Parse(WorkflowMarker(taskId, revision) + rest) == Some(WorkflowTarget(CleanTagPart(taskId, TAG_LIMIT), revision)) <==>
              FirstTicket(TICKET_PREFIX, rest, 0).None?
  {
    WorkflowAtStart(taskId, revision, rest);
    TicketAfterMarker(taskId, revision, rest);
    TicketsOnly(TICKET_PREFIX, WorkflowMarker(taskId, revision) + rest, 0);
  }

  lemma WorkflowAtStart(taskId: string, revision: nat, rest: string)
    requires taskId != ""
    ensures WorkflowAt(WorkflowMarker(taskId, revision) + rest, 0) == Some(WorkflowTarget(CleanTagPart(taskId, TAG_LIMIT), revision))
    ensures TicketAt(TICKET_PREFIX, WorkflowMarker(taskId, revision) + rest, 0).None?
  {
    var tag := CleanTagPart(taskId, TAG_LIMIT);
    var tail := tag + (":" + (Print(revision) + ("]" + rest)));
    CleanTagShape(taskId);
    WorkflowReads(tag, revision, rest);
    NotATicket(tail);
    Regrouped(HEAD + WORKFLOW, tag, ":", Print(revision), "]", rest);
  }

  lemma TicketAfterMarker(taskId: string, revision: nat, rest: string)
    requires taskId != ""
    ensures FirstTicket(TICKET_PREFIX, WorkflowMarker(taskId, revision) + rest, 0) == FirstTicket(TICKET_PREFIX, rest, 0)
  {
    WorkflowAtStart(taskId, revision, rest);
    OneBracket(taskId, revision);
    assert TICKET_PREFIX[0] == '[';
    TicketBehind(TICKET_PREFIX, WorkflowMarker(taskId, revision), rest);
  }

  /** A text with one opening bracket, at its start, that starts no ticket marker, hides none behind it. */
  lemma TicketBehind(prefix: string, text: string, rest: string)
    requires prefix != "" && prefix[0] == '[' && text != ""
    requires TicketAt(prefix, text + rest, 0).None? && forall k :: 1 <= k < |text| ==> text[k] != '['
    ensures FirstTicket(prefix, text + rest, 0) == FirstTicket(prefix, rest, 0)
  {
    NoTicketBefore(prefix, text + rest, 1, |text|);
    TicketInRest(prefix, text, rest, 0);
  }

  /** The search for a ticket marker finds nothing but ticket markers. */
  lemma {:induction false} TicketsOnly(prefix: string, s: string, i: nat)
    requires i <= |s|
    ensures FirstTicket(prefix, s, i).Some? ==> FirstTicket(prefix, s, i).value.TicketTarget?
    decreases |s| - i
  {
    if i < |s| {
      TicketsOnly(prefix, s, i + 1);
    }
  }

  /** Without an opening bracket before place `j`, the search goes on there. */
  lemma {:induction false} NoTicketBefore(prefix: string, s: string, i: nat, j: nat)
    requires prefix != "" && prefix[0] == '[' && i <= j <= |s| && forall k :: i <= k < j ==> s[k] != '['
    ensures FirstTicket(prefix, s, i) == FirstTicket(prefix, s, j)
    decreases j - i
  {
    if i < j {
      NoTicketWithoutBracket(prefix, s, i);
      NoTicketBefore(prefix, s, i + 1, j);
    }
  }

  /** Behind a text the search finds what it finds in the rest alone. */
  lemma {:induction false} TicketInRest(prefix: string, text: string, rest: string, i: nat)
    requires i <= |rest|
    ensures FirstTicket(prefix, text + rest, |text| + i) == FirstTicket(prefix, rest, i)
    decreases |rest| - i
  {
    assert (text + rest)[|text| + i..] == rest[i..];
    SameMatch(prefix, text + rest, |text| + i, rest, i);
    if i < |rest| {
      TicketInRest(prefix, text, rest, i + 1);
    }
  }

  lemma SameMatch(prefix: string, s: string, i: nat, t: string, j: nat)
    requires i <= |s| && j <= |t| && s[i..] == t[j..]
    ensures TicketAt(prefix, s, i) == TicketAt(prefix, t, j)
  {
    if prefix <= s[i..] {
      assert s[i + |prefix|..] == s[i..][|prefix|..] == t[j..][|prefix|..] == t[j + |prefix|..];
    }
  }

  lemma OneBracket(taskId: string, revision: nat)
    ensures forall k :: 1 <= k < |WorkflowMarker(taskId, revision)| ==> WorkflowMarker(taskId, revision)[k] != '['
  {
    var marker, tag := WorkflowMarker(taskId, revision), CleanTagPart(taskId, TAG_LIMIT);
    assert Plain((HEAD + WORKFLOW)[1..]);
    assert Plain(tag) && Plain(":") && Plain(Print(revision)) && Plain("]");
    assert marker[1..] == (HEAD + WORKFLOW)[1..] + tag + ":" + Print(revision) + "]";
    forall k | 1 <= k < |marker| ensures marker[k] != '[' {
      assert marker[k] == marker[1..][k - 1];
    }
  }

  lemma Regrouped(a: string, b: string, c: string, d: string, e: string, f: string)
    ensures a + b + c + d + e + f == a + (b + (c + (d + (e + f))))
  {
    assert a + b + c + d + e + f == (a + b) + (c + (d + (e + f)));
  }

  /** The task survives the marker exactly when it has at most 96 characters and all of them are tag characters. */
  lemma TaskSurvivesIff(taskId: string)
    ensures CleanTagPart(taskId, TAG_LIMIT) == taskId <==>
              |taskId| <= TAG_LIMIT && forall i :: 0 <= i < |taskId| ==> IsTagChar(taskId[i])
  {
    if forall i :: 0 <= i < |taskId| ==> IsTagChar(taskId[i]) {
      assert Dashed(taskId) == taskId;
    }
    if |taskId| <= TAG_LIMIT && CleanTagPart(taskId, TAG_LIMIT) == taskId {
      assert forall i :: 0 <= i < |taskId| ==> taskId[i] == Dashed(taskId)[i];
    }
  }

  /** Two markers as they stand in a prompt. */
  lemma MarkersInPrint()
    ensures TicketMarker(42) == HEAD + "ticket:42]"
    ensures WorkflowMarker("a.b", 3) == HEAD + "workflow:a-b:3]"
    ensures HEAD[..20] == "[CogentNexus-OpenCla" && HEAD[20..] == "w Delivery: "
  {
    assert Print(42) == Print(4) + ['2'] == "42" && Print(3) == "3";
    assert Dashed("a.b") == "a-b";
    assert TicketMarker(42) == HEAD + (TICKET + "42" + "]");
    assert WorkflowMarker("a.b", 3) == HEAD + (WORKFLOW + "a-b" + ":" + "3" + "]");
  }

  // ---------------------------------------------------------------- completion messages

  /** Directory names that are accepted as task ids. */
  predicate IsTaskId(s: string) {
    && 1 <= |s| <= 128
    && IsTagChar(s[0]) && s[0] != '_' && s[0] != '-'
    && forall i :: 0 <= i < |s| ==> IsTagChar(s[i]) || s[i] == '.'
  }

  const INSPECT := "Inspect the durable workflow state, " + "ledger, validators, and artifact hashes now."
  const CONSUME := "If completed, consume the verified " + "result and continue the recorded " + "goal or report the compact outcome."
  const CLASSIFY := "If blocked or failed, classify the " + "failure and resume safely only when " + "authorized and materially useful."
  const WAIT := "Do not wait for the user to notice " + "process or CPU changes, and do not "
  const CLAIM := "claim domain success from workflow " + "completion alone."

  function Guidance(): string {
    "\n" + INSPECT + "\n" + CONSUME + "\n" + CLASSIFY + "\n" + WAIT + CLAIM
  }

  function Announcement(taskId: string, status: string): string {
    "\nCogentNexus-OpenClaw workflow " + taskId + " reached terminal status " + status + "."
  }

  function CompletionMessage(taskId: string, revision: nat, status: string): string {
    WorkflowMarker(taskId, revision) + Announcement(taskId, status) + Guidance()
  }

  lemma Joined(a: string, b: string)
    ensures Plain(a + b) <==> Plain(a) && Plain(b)
  {
  }

  lemma JoinedThree(a: string, b: string, c: string)
    requires Plain(a) && Plain(b) && Plain(c)
    ensures Plain(a + b + c)
  {
  }

  lemma InspectIsPlain()
    ensures Plain(INSPECT)
  {
    Joined("Inspect the durable workflow state, ", "ledger, validators, and artifact hashes now.");
  }

  lemma ConsumeIsPlain()
    ensures Plain(CONSUME)
  {
    JoinedThree("If completed, consume the verified ", "result and continue the recorded ", "goal or report the compact outcome.");
  }

  lemma ClassifyIsPlain()
    ensures Plain(CLASSIFY)
  {
    JoinedThree("If blocked or failed, classify the ", "failure and resume safely only when ", "authorized and materially useful.");
  }

  lemma WaitIsPlain()
    ensures Plain(WAIT)
  {
    Joined("Do not wait for the user to notice ", "process or CPU changes, and do not ");
  }

  lemma ClaimIsPlain()
    ensures Plain(CLAIM)
  {
    Joined("claim domain success from workflow ", "completion alone.");
  }

  lemma GuidanceIsPlain()
    ensures Plain(Guidance())
  {
    InspectIsPlain();
    ConsumeIsPlain();
    ClassifyIsPlain();
    WaitIsPlain();
    ClaimIsPlain();
    assert Plain("\n");
  }

  lemma AnnouncementIsPlain(taskId: string, status: string)
    requires Plain(taskId) && Plain(status)
    ensures Plain(Announcement(taskId, status))
  {
    assert Plain("\nCogentNexus-OpenClaw workflow ") && Plain(" reached terminal status ") && Plain(".");
  }

  /**
   Reading a completion message back gives its revision and its cleaned task, for every
   accepted task id, every revision and every status without an opening bracket. The task
   itself comes back exactly when it has no dot and at most 96 characters.
   */
  lemma CompletionRoundTrip(taskId: string, revision: nat, status: string)
    requires IsTaskId(taskId) && Plain(status)
    ensures Parse(CompletionMessage(taskId, revision, status)) == Some(WorkflowTarget(CleanTagPart(taskId, TAG_LIMIT), revision))
    ensures Parse(CompletionMessage(taskId, revision, status)) == Some(WorkflowTarget(taskId, revision)) <==>
              '.' !in taskId && |taskId| <= TAG_LIMIT
  {
    GuidanceIsPlain();
    assert Plain(taskId);
    AnnouncementIsPlain(taskId, status);
    var rest := Announcement(taskId, status) + Guidance();
    Joined(Announcement(taskId, status), Guidance());
    assert CompletionMessage(taskId, revision, status) == WorkflowMarker(taskId, revision) + rest;
    assert TICKET_PREFIX[0] == '[';
    NoTicketFrom(TICKET_PREFIX, rest, 0);
    WorkflowRoundTrip(taskId, revision, rest);
    TaskSurvivesIff(taskId);
  }

  /** Two accepted tasks share a marker when they differ only in dots and dashes. */
  lemma DottedTaskIsFlattened()
    ensures IsTaskId("a.b") && IsTaskId("a-b")
    ensures forall revision: nat :: WorkflowMarker("a.b", revision) == WorkflowMarker("a-b", revision)
  {
    assert Dashed("a.b") == "a-b" == Dashed("a-b");
  }
}
