/**
 * completeRecord, Retry and Processor.Process: the order of effects that finish one record.
 * Every effect is written to a journal with the answer it got; answers and the moment the
 * context ends are arbitrary.
 */
module Delivery {
  import opened Basics

  datatype Outcome = Delivered | Filtered | Skipped

  /** An effect and its answer; None and false are failed calls. */
  datatype Event =
    | LookedUp(found: Option<bool>)
    | Sent(outcome: Option<Outcome>)
    | Audited(stored: bool)
    | Committed(done: bool)

  /** The effects that Retry repeats. */
  datatype Action = AskSkip | StoreSkip | CommitOffset

  function Failure(action: Action): Event {
    match action
    case AskSkip => LookedUp(None)
    case StoreSkip => Audited(false)
    case CommitOffset => Committed(false)
  }

  function Success(action: Action, found: bool): Event {
    match action
    case AskSkip => LookedUp(Some(found))
    case StoreSkip => Audited(true)
    case CommitOffset => Committed(true)
  }

  // ----- the safe order, as an automaton over journals

  datatype Stage = Asking | Sending | Auditing | Committing | Finished | Undeliverable | Unsafe

  function Next(stage: Stage, e: Event): Stage {
    match (stage, e)
    case (Asking, LookedUp(None)) => Asking
    case (Asking, LookedUp(Some(found))) => if found then Committing else Sending
    case (Sending, Sent(None)) => Undeliverable
    case (Sending, Sent(Some(outcome))) => if outcome.Skipped? then Auditing else Committing
    case (Auditing, Audited(stored)) => if stored then Committing else Auditing
    case (Committing, Committed(done)) => if done then Finished else Committing
    case _ => Unsafe
  }

  function After(journal: seq<Event>): Stage {
    if journal == [] then Asking else Next(After(journal[..|journal| - 1]), journal[|journal| - 1])
  }

  lemma AfterOneMore(journal: seq<Event>, e: Event)
    ensures After(journal + [e]) == Next(After(journal), e)
  {
    assert (journal + [e])[..|journal|] == journal;
  }

  lemma {:induction false} PrefixSafe(journal: seq<Event>, n: nat)
    requires n <= |journal| && After(journal) != Unsafe
    ensures After(journal[..n]) != Unsafe
  {
    if n < |journal| {
      assert journal[..|journal| - 1][..n] == journal[..n];
      PrefixSafe(journal[..|journal| - 1], n);
    } else {
      assert journal[..n] == journal;
    }
  }

  /** What a stage says about the events behind it. */
  ghost predicate Explains(stage: Stage, j: seq<Event>) {
    && (stage.Asking? || stage.Sending? ==> forall e :: e in j ==> e.LookedUp?)
    && (stage.Asking? ==> LookedUp(Some(true)) !in j)
    && (stage.Sending? ==> LookedUp(Some(true)) !in j && LookedUp(Some(false)) in j)
    && (stage.Auditing? ==> Sent(Some(Skipped)) in j && Audited(true) !in j)
    && (stage.Committing? || stage.Finished? ==>
          || LookedUp(Some(true)) in j || Sent(Some(Delivered)) in j || Sent(Some(Filtered)) in j
          || (Sent(Some(Skipped)) in j && Audited(true) in j))
    && (stage.Committing? || stage.Finished? ==> Sent(Some(Skipped)) in j ==> Audited(true) in j)
    && (Committed(true) in j <==> stage.Finished?)
    && (LookedUp(Some(true)) in j ==> forall e :: e in j ==> !e.Sent?)
  }

  lemma {:induction false} JournalExplained(journal: seq<Event>)
    requires After(journal) != Unsafe
    ensures Explains(After(journal), journal)
  {
    if journal != [] {
      var init, last := journal[..|journal| - 1], journal[|journal| - 1];
      assert journal == init + [last];
      JournalExplained(init);
    }
  }

  /** Two sends of one record never happen. */
  lemma {:induction false} SendsOnce(journal: seq<Event>, a: nat, b: nat)
    requires After(journal) != Unsafe && a < b < |journal|
    requires journal[a].Sent?
    ensures !journal[b].Sent?
  {
    var before := journal[..b];
    PrefixSafe(journal, b);
    PrefixSafe(journal, b + 1);
    assert journal[..b + 1] == before + [journal[b]];
    AfterOneMore(before, journal[b]);
    JournalExplained(before);
    assert before[a].Sent? && before[a] in before;
  }

  /** A record whose skip was found is never sent. */
  lemma FoundSkipIsNotSent(journal: seq<Event>, b: nat)
    requires After(journal) != Unsafe && b < |journal| && LookedUp(Some(true)) in journal
    ensures !journal[b].Sent?
  {
    JournalExplained(journal);
  }

  /**
   * A commit is attempted only after a terminal outcome: a stored skip was found, the record
   * was delivered or filtered, or it was skipped and its audit had succeeded.
   */
  lemma CommitAfterTerminal(journal: seq<Event>, b: nat)
    requires After(journal) != Unsafe && b < |journal| && journal[b].Committed?
    ensures var before := journal[..b];
            && (LookedUp(Some(true)) in before || Sent(Some(Delivered)) in before ||
                Sent(Some(Filtered)) in before || Audited(true) in before)
            && (Sent(Some(Skipped)) in before ==> Audited(true) in before)
  {
    PrefixSafe(journal, b);
    PrefixSafe(journal, b + 1);
    assert journal[..b + 1] == journal[..b] + [journal[b]];
    AfterOneMore(journal[..b], journal[b]);
    JournalExplained(journal[..b]);
  }

  /** A record is sent only after a lookup that found no skip. */
  lemma SendAfterLookup(journal: seq<Event>, b: nat)
    requires After(journal) != Unsafe && b < |journal| && journal[b].Sent?
    ensures LookedUp(Some(false)) in journal[..b]
  {
    PrefixSafe(journal, b);
    PrefixSafe(journal, b + 1);
    assert journal[..b + 1] == journal[..b] + [journal[b]];
    AfterOneMore(journal[..b], journal[b]);
    JournalExplained(journal[..b]);
  }

  // ----- what the destination says

  /** The reply to one attempt; none of it, or one that asks for another attempt, is NoAnswer. */
  datatype Reply = Accepted | Rejected | NoAnswer

  /** Attempt number n is the first that is answered. */
  ghost predicate Answered(replies: nat -> Reply, n: nat) {
    replies(n) != NoAnswer && forall i: nat :: i < n ==> replies(i) == NoAnswer
  }

  /** The outcome of a record: filtered, or what the first answer says. */
  ghost predicate Becomes(outcome: Outcome, matches: bool, replies: nat -> Reply) {
    match outcome
    case Filtered => !matches
    case Delivered => matches && exists n: nat :: Answered(replies, n) && replies(n).Accepted?
    case Skipped => matches && exists n: nat :: Answered(replies, n) && replies(n).Rejected?
  }

  /** Every outcome in a journal is the record's. */
  ghost predicate Truthful(journal: seq<Event>, matches: bool, replies: nat -> Reply) {
    forall outcome :: Sent(Some(outcome)) in journal ==> Becomes(outcome, matches, replies)
  }

  // ----- the code

  /** The context and the collaborators of one record. life is how many waits the context survives. */
  class World {
    var life: nat
    var journal: seq<Event>

    constructor (life: nat)
      ensures this.life == life && journal == []
    {
      this.life, journal := life, [];
    }

    /** The context may end while a call is under way. */
    method Pass()
      modifies this`life
      ensures life <= old(life)
    {
      var rest: nat :| rest <= life;
      life := rest;
    }

    method Perform(action: Action) returns (ok: bool, found: bool)
      modifies this
      ensures life <= old(life)
      ensures journal == old(journal) + [if ok then Success(action, found) else Failure(action)]
    {
      Pass();
      ok, found := *, *;
      journal := journal + [if ok then Success(action, found) else Failure(action)];
    }

    method Sleep() returns (ended: bool)
      modifies this`life
      ensures if ended then life == old(life) == 0 else life < old(life)
    {
      ended := life == 0;
      if !ended { life := life - 1; }
    }
  }

  /** journal is earlier, then failures of one action, then its success if there was one. */
  ghost predicate Retried(earlier: seq<Event>, journal: seq<Event>, action: Action, ok: bool, found: bool) {
    exists n: nat :: journal == earlier + Failures(action, n) + (if ok then [Success(action, found)] else [])
  }

  function Failures(action: Action, n: nat): seq<Event> { seq(n, _ => Failure(action)) }

  /** Retry repeats the action until it succeeds, and gives up only when the context ends. */
  method Retry(w: World, action: Action) returns (ok: bool, found: bool)
    modifies w
    ensures Retried(old(w.journal), w.journal, action, ok, found)
    ensures w.life <= old(w.life) && (!ok ==> w.life == 0)
  {
    ghost var n: nat := 0;
    found := false;
    while true
      invariant w.journal == old(w.journal) + Failures(action, n)
      invariant w.life <= old(w.life)
      decreases w.life
    {
      if w.life == 0 {
        assert w.journal == old(w.journal) + Failures(action, n) + [];
        return false, false;
      }
      ghost var before := w.journal;
      ok, found := w.Perform(action);
      if ok {
        assert w.journal == old(w.journal) + Failures(action, n) + [Success(action, found)];
        return;
      }
      assert Failures(action, n) + [Failure(action)] == Failures(action, n + 1);
      n := n + 1;
      var ended := w.Sleep();
      if ended {
        assert w.journal == old(w.journal) + Failures(action, n) + [];
        return false, false;
      }
    }
  }

  lemma {:induction false} RetryStays(earlier: seq<Event>, action: Action, n: nat)
    requires Next(After(earlier), Failure(action)) == After(earlier)
    ensures After(earlier + Failures(action, n)) == After(earlier)
  {
    if n == 0 {
      assert earlier + Failures(action, 0) == earlier;
    } else {
      RetryStays(earlier, action, n - 1);
      assert earlier + Failures(action, n) == earlier + Failures(action, n - 1) + [Failure(action)];
      AfterOneMore(earlier + Failures(action, n - 1), Failure(action));
    }
  }

  /** Retrying leaves the stage as it was until the action succeeds. */
  lemma RetryAdvances(earlier: seq<Event>, journal: seq<Event>, action: Action, ok: bool, found: bool)
    requires Retried(earlier, journal, action, ok, found)
    requires Next(After(earlier), Failure(action)) == After(earlier)
    ensures After(journal) == if ok then Next(After(earlier), Success(action, found)) else After(earlier)
  {
    var n: nat :| journal == earlier + Failures(action, n) + (if ok then [Success(action, found)] else []);
    RetryStays(earlier, action, n);
    if ok {
      AfterOneMore(earlier + Failures(action, n), Success(action, found));
    } else {
      assert journal == earlier + Failures(action, n);
    }
  }

  /** Retrying sends nothing. */
  lemma RetryTruthful(earlier: seq<Event>, journal: seq<Event>, action: Action, ok: bool, found: bool,
                      matches: bool, replies: nat -> Reply)
    requires Retried(earlier, journal, action, ok, found) && Truthful(earlier, matches, replies)
    ensures Truthful(journal, matches, replies)
  {
    var n: nat :| journal == earlier + Failures(action, n) + (if ok then [Success(action, found)] else []);
    forall outcome | Sent(Some(outcome)) in journal
      ensures Sent(Some(outcome)) in earlier
    {
      assert Failure(action) != Sent(Some(outcome)) && Success(action, found) != Sent(Some(outcome));
    }
  }

  /** One send; it does its own retrying, so its error is final. encodes is whether the envelope can be encoded. */
  method Send(w: World, matches: bool, encodes: bool, replies: nat -> Reply) returns (outcome: Option<Outcome>)
    modifies w
    ensures w.journal == old(w.journal) + [Sent(outcome)]
    ensures w.life <= old(w.life) && (outcome == None ==> w.life == 0 || (matches && !encodes))
    ensures outcome.Some? ==> Becomes(outcome.value, matches, replies)
  {
    ghost var attempts;
    outcome, attempts := Deliver(w, matches, encodes, replies);
    w.journal := w.journal + [Sent(outcome)];
  }

  method SendAndAudit(w: World, matches: bool, encodes: bool, replies: nat -> Reply) returns (ok: bool)
    requires After(w.journal) == Sending && Truthful(w.journal, matches, replies)
    modifies w
    ensures After(w.journal) != Unsafe && w.life <= old(w.life) && (!ok ==> w.life == 0 || (matches && !encodes))
    ensures if ok then After(w.journal).Committing? else !After(w.journal).Finished?
    ensures Truthful(w.journal, matches, replies)
  {
    ghost var earlier := w.journal;
    var outcome := Send(w, matches, encodes, replies);
    AfterOneMore(earlier, Sent(outcome));
    if outcome.None? { return false; }
    if outcome.value != Skipped { return true; }
    earlier := w.journal;
    var found;
    ok, found := Retry(w, StoreSkip);
    RetryAdvances(earlier, w.journal, StoreSkip, ok, found);
    RetryTruthful(earlier, w.journal, StoreSkip, ok, found, matches, replies);
  }

  /**
   * The only safe order of effects, and success exactly when a commit succeeded. What was sent became what
   * the filter and the destination's first answer say.
   */
  method CompleteRecord(w: World, matches: bool, encodes: bool, replies: nat -> Reply) returns (ok: bool)
    requires w.journal == []
    modifies w
    ensures After(w.journal) != Unsafe && Truthful(w.journal, matches, replies)
    ensures ok <==> After(w.journal).Finished?
    ensures ok <==> Committed(true) in w.journal
    ensures !ok ==> w.life == 0 || (matches && !encodes)
  {
    var skipped;
    ok, skipped := Retry(w, AskSkip);
    RetryAdvances([], w.journal, AskSkip, ok, skipped);
    RetryTruthful([], w.journal, AskSkip, ok, skipped, matches, replies);
    JournalExplained(w.journal);
    if !ok { return; }
    if !skipped {
      ok := SendAndAudit(w, matches, encodes, replies);
      JournalExplained(w.journal);
      if !ok { return; }
    }
    ghost var earlier := w.journal;
    var found;
    ok, found := Retry(w, CommitOffset);
    RetryAdvances(earlier, w.journal, CommitOffset, ok, found);
    RetryTruthful(earlier, w.journal, CommitOffset, ok, found, matches, replies);
    JournalExplained(w.journal);
  }

  /**
   * Processor.Process: a record the filter excludes is not attempted, nor is one whose envelope
   * cannot be encoded; otherwise attempts go on until one is answered, and only the end of the
   * context stops them without an answer.
   */
  method Deliver(w: World, matches: bool, encodes: bool, replies: nat -> Reply)
    returns (outcome: Option<Outcome>, ghost attempts: nat)
    modifies w`life
    ensures w.life <= old(w.life) && (outcome == None ==> w.life == 0 || (matches && !encodes))
    ensures !matches ==> outcome == Some(Filtered) && attempts == 0
    ensures matches && !encodes ==> outcome == None && attempts == 0 && w.life == old(w.life)
    ensures matches && encodes && outcome == None ==>
              attempts > 0 && forall i: nat :: i < attempts ==> replies(i) == NoAnswer
    ensures matches && encodes && outcome.Some? ==> attempts > 0 && Answered(replies, attempts - 1)
    ensures outcome.Some? ==> Becomes(outcome.value, matches, replies)
    ensures attempts <= old(w.life) + 1
  {
    attempts := 0;
    if !matches { return Some(Filtered), 0; }
    if !encodes { return None, 0; }
    var attempt: nat := 0;
    while true
      invariant attempts == attempt && w.life + attempts <= old(w.life)
      invariant forall i: nat :: i < attempts ==> replies(i) == NoAnswer
      decreases w.life
    {
      w.Pass();
      var reply := replies(attempt);
      attempt, attempts := attempt + 1, attempts + 1;
      if reply != NoAnswer {
        assert Answered(replies, attempts - 1);
        return Some(if reply.Accepted? then Delivered else Skipped), attempts;
      }
      var ended := w.Sleep();
      if ended { return None, attempts; }
    }
  }
}
