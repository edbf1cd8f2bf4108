/** internal/activity/log.go: a ring buffer read through cursors. */
module ActivityLog {
  import opened Basics
  import opened JsonNumber
  import opened Strings

  const CAPACITY: nat := 1000

  const UINT64: nat := 0x1_0000_0000_0000_0000

  /** One activity entry; what the caller fills in besides the level is one value here. */
  datatype Entry = Entry(id: string, time: int, level: string, fields: string)

  datatype Page = Page(entries: seq<Entry>, nextCursor: string, reset: bool)

  // ----- cursors

  function FormatUint(n: nat): string {
    (if n < 10 then "" else FormatUint(n / 10)) + ['0' + (n % 10) as char]
  }

  /** strconv.ParseUint in base ten and 64 bits. */
  function ParseUint(s: string): Option<nat> {
    if s != "" && Digits(s) && Nat(s) < UINT64 then Some(Nat(s)) else None
  }

  function CursorFor(boot: string, sequence: nat): string {
    boot + ":" + FormatUint(sequence)
  }

  function ParseCursor(cursor: string): Option<(string, nat)> {
    var colon := IndexOf(cursor, {':'});
    if colon <= 0 then None
    else
      match ParseUint(cursor[colon + 1..])
      case None => None
      case Some(sequence) => Some((cursor[..colon], sequence))
  }

  /** What names one run of the process: not empty and without a colon. */
  predicate IsBoot(boot: string) {
    boot != "" && ':' !in boot
  }

  lemma {:induction false} FormatReads(n: nat)
    ensures FormatUint(n) != "" && Digits(FormatUint(n)) && Nat(FormatUint(n)) == n
  {
    var front := if n < 10 then "" else FormatUint(n / 10);
    if n >= 10 { FormatReads(n / 10); }
    assert FormatUint(n)[..|front|] == front;
  }

  lemma ParseParts(boot: string, number: string)
    requires IsBoot(boot)
    ensures ParseCursor(boot + ":" + number) ==
              match ParseUint(number) case None => None case Some(n) => Some((boot, n))
  {
    IndexAt(boot, [':'] + number, {':'});
    AfterIndex(boot, ':', number);
    assert boot + ":" + number == boot + ([':'] + number);
  }

  /** Parsing inverts formatting. */
  lemma CursorRoundTrip(boot: string, sequence: nat)
    requires IsBoot(boot) && sequence < UINT64
    ensures ParseCursor(CursorFor(boot, sequence)) == Some((boot, sequence))
  {
    FormatReads(sequence);
    ParseParts(boot, FormatUint(sequence));
  }

  /** Decimal digits, leading zeros allowed, of a number of 64 bits. */
  predicate Writes(digits: string, n: nat) {
    digits != "" && Digits(digits) && Nat(digits) == n < 0x1_0000_0000_0000_0000
  }

  /** A cursor is exactly a boot text, a colon and the digits of a 64-bit number. */
  lemma CursorsExactly(cursor: string, boot: string, sequence: nat)
    ensures ParseCursor(cursor) == Some((boot, sequence)) <==>
            IsBoot(boot) && exists number :: cursor == boot + ":" + number && Writes(number, sequence)
  {
    if ParseCursor(cursor) == Some((boot, sequence)) {
      BeforeIndex(cursor, {':'});
      assert cursor == boot + ":" + cursor[|boot| + 1..];
    }
    if IsBoot(boot) {
      forall number | cursor == boot + ":" + number && Writes(number, sequence)
        ensures ParseCursor(cursor) == Some((boot, sequence))
      {
        ParseParts(boot, number);
      }
    }
  }

  // ----- the unbounded history

  /** Everything, or the last 1000 entries. */
  function Retained(history: seq<Entry>): seq<Entry> {
    if |history| <= 1000 then history else history[|history| - 1000..]
  }

  /** The position a cursor names, if it can still be read on from. */
  function Resumes(boot: string, length: nat, cursor: string): Option<nat> {
    match ParseCursor(cursor)
    case Some((b, n)) => if b == boot && n <= length <= n + 1000 then Some(n) else None
    case None => None
  }

  /** What a read returns, told from the whole history. */
  function PageOf(boot: string, history: seq<Entry>, cursor: string): Result<Page, string> {
    var next := CursorFor(boot, |history|);
    if cursor == "" then Ok(Page(Retained(history), next, false))
    else if ParseCursor(cursor) == None then Err("invalid log cursor")
    else if Resumes(boot, |history|, cursor) == None then Ok(Page(Retained(history), next, true))
    else
      var n := Resumes(boot, |history|, cursor).value;
      assert n <= |history|;
      Ok(Page(history[n..], next, false))
  }

  // ----- the ring buffer

  function Slot(sequence: nat): (s: nat)
    ensures s < CAPACITY
  {
    sequence % CAPACITY
  }

  function FirstUnread(sequence: nat, after: nat): nat {
    var oldest := (if sequence > CAPACITY then sequence else CAPACITY) - CAPACITY + 1;
    if oldest > after + 1 then oldest else after + 1
  }

  /** The entries from the first unread one on. */
  lemma Unread(history: seq<Entry>, after: nat)
    requires after <= |history|
    ensures var first := FirstUnread(|history|, after);
            && 1 <= first <= |history| + 1
            && history[first - 1..|history|] ==
               if |history| - after <= CAPACITY then history[after..] else Retained(history)
  {
  }

  /** Whether a cursor resets the reader, and the number of the last entry it has read. */
  function StartOf(boot: string, sequence: nat, cursor: string): (r: Result<(bool, nat), string>)
    ensures r.Ok? ==> r.value.1 <= sequence
  {
    if cursor == "" then Ok((false, 0))
    else
      match ParseCursor(cursor)
      case None => Err("invalid log cursor")
      case Some((b, n)) =>
        var reset := b != boot || n > sequence || sequence - n > CAPACITY;
        Ok((reset, if reset then 0 else n))
  }

  lemma StartsPage(boot: string, history: seq<Entry>, cursor: string)
    requires StartOf(boot, |history|, cursor).Ok?
    ensures var (reset, after) := StartOf(boot, |history|, cursor).value;
            var first := FirstUnread(|history|, after);
            && 1 <= first <= |history| + 1
            && PageOf(boot, history, cursor) == Ok(Page(history[first - 1..], CursorFor(boot, |history|), reset))
  {
    var after := StartOf(boot, |history|, cursor).value.1;
    Unread(history, after);
    assert history[FirstUnread(|history|, after) - 1..|history|] == history[FirstUnread(|history|, after) - 1..];
  }

  /** Numbers less than CAPACITY apart do not share a slot. */
  lemma SlotsApart(a: nat, b: nat)
    requires a < b < a + CAPACITY
    ensures Slot(a) != Slot(b)
  {
  }

  function Stamped(e: Entry, id: string, now: int): Entry {
    e.(id := id, time := now, level := if e.level == "" then "info" else e.level)
  }

  class Log {
    const boot: string
    const entries: array<Entry>
    var sequence: nat
    /** Every entry ever added, oldest first; entry n is history[n - 1]. */
    ghost var history: seq<Entry>

    ghost predicate Valid()
      reads this, entries
    {
      && IsBoot(boot) && entries.Length == CAPACITY
      && sequence == |history| && sequence < UINT64
      && (forall n :: FirstUnread(sequence, 0) <= n <= sequence ==> entries[Slot(n)] == history[n - 1])
      && (forall i :: 0 <= i < |history| ==> history[i].id == CursorFor(boot, i + 1))
    }

    constructor (boot: string)
      requires IsBoot(boot)
      ensures Valid() && fresh(entries) && this.boot == boot && history == []
    {
      this.boot := boot;
      entries := new Entry[CAPACITY](_ => Entry("", 0, "", ""));
      sequence := 0;
      history := [];
    }

    method Add(e: Entry, now: int)
      requires Valid() && sequence + 1 < UINT64
      modifies this`sequence, this`history, entries
      ensures Valid()
      ensures |history| == |old(history)| + 1 && history[..|old(history)|] == old(history)
      ensures history[|old(history)|] == Entry(CursorFor(boot, |history|), now,
                                               if e.level == "" then "info" else e.level, e.fields)
    {
      var stamped := Stamped(e, CursorFor(boot, sequence + 1), now);
      forall n | FirstUnread(sequence + 1, 0) <= n <= sequence
        ensures Slot(n) != Slot(sequence + 1)
      {
        SlotsApart(n, sequence + 1);
      }
      sequence := sequence + 1;
      history := history + [stamped];
      entries[Slot(sequence)] := stamped;
    }

    method Read(cursor: string) returns (r: Result<Page, string>)
      requires Valid()
      ensures r == PageOf(boot, history, cursor)
    {
      match StartOf(boot, sequence, cursor) {
        case Err(e) =>
          return Err(e);
        case Ok((reset, after)) =>
          StartsPage(boot, history, cursor);
          var entries := Entries(FirstUnread(sequence, after));
          return Ok(Page(entries, CursorFor(boot, sequence), reset));
      }
    }

    /** The retained entries from the given one on. */
    method Entries(first: nat) returns (page: seq<Entry>)
      requires Valid() && FirstUnread(sequence, 0) <= first <= sequence + 1
      ensures page == history[first - 1..]
    {
      var n := first;
      page := [];
      while n <= sequence
        invariant first <= n <= sequence + 1
        invariant page == history[first - 1..n - 1]
      {
        page := page + [entries[Slot(n)]];
        n := n + 1;
      }
    }
  }

  // ----- reading on

  /** The log is read when it holds lengths[0] entries, then lengths[1], and so on, up to all of the history. */
  predicate Growing(lengths: seq<nat>, history: seq<Entry>) {
    && |history| < UINT64
    && (forall i :: 0 <= i < |lengths| ==> lengths[i] <= |history|)
    && (forall i, j :: 0 <= i <= j < |lengths| ==> lengths[i] <= lengths[j])
  }

  /** Reading a log as it stands, from a cursor. */
  type Reader = (seq<Entry>, string) -> Result<Page, string>

  function ReaderOf(boot: string): Reader { (history, cursor) => PageOf(boot, history, cursor) }

  /**
   * The first n pages of a reader that starts with an empty cursor and then always passes the NextCursor it was
   * given.
   */
  function Follow(read: Reader, lengths: seq<nat>, history: seq<Entry>, n: nat): (pages: seq<Result<Page, string>>)
    requires Growing(lengths, history) && n <= |lengths|
    ensures |pages| == n
  {
    if n == 0 then []
    else
      var before := Follow(read, lengths, history, n - 1);
      before + [read(history[..lengths[n - 1]], if n == 1 then "" else NextCursor(before[n - 2]))]
  }

  function NextCursor(r: Result<Page, string>): string { if r.Ok? then r.value.nextCursor else "" }

  function Joined(pages: seq<Result<Page, string>>): seq<Entry> {
    if pages == [] then []
    else
      var last := pages[|pages| - 1];
      Joined(pages[..|pages| - 1]) + if last.Ok? then last.value.entries else []
  }

  /** Reading again from the cursor of a shorter history. */
  lemma NextPage(boot: string, history: seq<Entry>, seen: nat)
    requires IsBoot(boot) && seen <= |history| < UINT64
    ensures PageOf(boot, history, CursorFor(boot, seen)) ==
            var next := CursorFor(boot, |history|);
            Ok(if |history| - seen <= CAPACITY then Page(history[seen..], next, false)
               else Page(Retained(history), next, true))
  {
    CursorRoundTrip(boot, seen);
  }

  predicate IsReset(r: Result<Page, string>) { r.Ok? && r.value.reset }

  /** The i-th page, told from the lengths alone. */
  function Told(boot: string, lengths: seq<nat>, history: seq<Entry>, i: nat): Page
    requires Growing(lengths, history) && i < |lengths|
  {
    var all, next := history[..lengths[i]], CursorFor(boot, lengths[i]);
    if i == 0 then Page(Retained(all), next, false)
    else if lengths[i] - lengths[i - 1] <= CAPACITY then Page(all[lengths[i - 1]..], next, false)
    else Page(Retained(all), next, true)
  }

  /** The i-th page is the read of the history as it stood, from the cursor of the page before. */
  lemma {:induction false} FollowAt(read: Reader, lengths: seq<nat>, history: seq<Entry>, n: nat, i: nat)
    requires Growing(lengths, history) && i < n <= |lengths|
    ensures Follow(read, lengths, history, n)[i] == Follow(read, lengths, history, i + 1)[i]
  {
    if i + 1 < n { FollowAt(read, lengths, history, n - 1, i); }
  }

  lemma FollowNext(read: Reader, lengths: seq<nat>, history: seq<Entry>, i: nat)
    requires Growing(lengths, history) && i < |lengths|
    ensures Follow(read, lengths, history, i + 1)[i] ==
            read(history[..lengths[i]], if i == 0 then "" else NextCursor(Follow(read, lengths, history, i)[i - 1]))
  {
  }

  predicate Gives(read: Reader, lengths: seq<nat>, history: seq<Entry>, pages: seq<Page>, i: nat)
    requires Growing(lengths, history) && |pages| == |lengths| && i < |lengths|
  {
    read(history[..lengths[i]], if i == 0 then "" else pages[i - 1].nextCursor) == Ok(pages[i])
  }

  /** The pages are these if each read, from the cursor of the page before, gives the next of them. */
  lemma {:induction false} FollowGives(read: Reader, lengths: seq<nat>, history: seq<Entry>, pages: seq<Page>, i: nat)
    requires Growing(lengths, history) && |pages| == |lengths| && i < |lengths|
    requires forall j :: 0 <= j < |pages| ==> Gives(read, lengths, history, pages, j)
    ensures Follow(read, lengths, history, i + 1)[i] == Ok(pages[i])
  {
    FollowNext(read, lengths, history, i);
    if i > 0 { FollowGives(read, lengths, history, pages, i - 1); }
    assert Gives(read, lengths, history, pages, i);
  }

  function AllTold(boot: string, lengths: seq<nat>, history: seq<Entry>): (pages: seq<Page>)
    requires Growing(lengths, history)
    ensures |pages| == |lengths| && forall i :: 0 <= i < |pages| ==> pages[i] == Told(boot, lengths, history, i)
  {
    seq(|lengths|, i requires 0 <= i < |lengths| => Told(boot, lengths, history, i))
  }

  lemma ReadsTold(boot: string, lengths: seq<nat>, history: seq<Entry>, i: nat)
    requires IsBoot(boot) && Growing(lengths, history) && i < |lengths|
    ensures PageOf(boot, history[..lengths[i]], if i == 0 then "" else Told(boot, lengths, history, i - 1).nextCursor)
            == Ok(Told(boot, lengths, history, i))
  {
    if i > 0 { LastIsTold(boot, lengths, history, i); }
  }

  /** Following the cursors gives exactly the pages told, and no read fails. */
  lemma FollowIsTold(boot: string, lengths: seq<nat>, history: seq<Entry>, i: nat)
    requires IsBoot(boot) && Growing(lengths, history) && i < |lengths|
    ensures Follow(ReaderOf(boot), lengths, history, i + 1)[i] == Ok(Told(boot, lengths, history, i))
  {
    var pages := AllTold(boot, lengths, history);
    forall j | 0 <= j < |pages|
      ensures Gives(ReaderOf(boot), lengths, history, pages, j)
    {
      ReadsTold(boot, lengths, history, j);
    }
    FollowGives(ReaderOf(boot), lengths, history, pages, i);
  }

  lemma LastIsTold(boot: string, lengths: seq<nat>, history: seq<Entry>, i: nat)
    requires IsBoot(boot) && Growing(lengths, history) && 0 < i < |lengths|
    ensures PageOf(boot, history[..lengths[i]], CursorFor(boot, lengths[i - 1])) == Ok(Told(boot, lengths, history, i))
  {
    NextPage(boot, history[..lengths[i]], lengths[i - 1]);
  }

  /** A page is a reset exactly when more than CAPACITY entries came since the one before. */
  lemma ResetsExactly(boot: string, lengths: seq<nat>, history: seq<Entry>, i: nat)
    requires IsBoot(boot) && Growing(lengths, history) && i < |lengths|
    ensures var p := Follow(ReaderOf(boot), lengths, history, |lengths|)[i];
            p.Ok? && p.value.nextCursor == CursorFor(boot, lengths[i])
            && (p.value.reset <==> i > 0 && lengths[i] - lengths[i - 1] > CAPACITY)
  {
    FollowIsTold(boot, lengths, history, i);
    FollowAt(ReaderOf(boot), lengths, history, |lengths|, i);
  }

  /** Where the first page begins. */
  function Begin(lengths: seq<nat>): nat
    requires lengths != []
  {
    if lengths[0] <= CAPACITY then 0 else lengths[0] - CAPACITY
  }

  predicate NoReset(lengths: seq<nat>) {
    forall i :: 0 < i < |lengths| ==> !Gap(lengths, i)
  }

  predicate Gap(lengths: seq<nat>, i: nat)
    requires 0 < i < |lengths|
  {
    lengths[i] - lengths[i - 1] > CAPACITY
  }

  /** The entries of the i-th page when nothing was reset. */
  function Part(lengths: seq<nat>, history: seq<Entry>, i: nat): seq<Entry>
    requires Growing(lengths, history) && i < |lengths|
  {
    history[if i == 0 then Begin(lengths) else lengths[i - 1]..lengths[i]]
  }

  /** Pages that hold their parts of the history join to the history. */
  lemma {:induction false} PartsJoin(pages: seq<Result<Page, string>>, lengths: seq<nat>, history: seq<Entry>, n: nat)
    requires Growing(lengths, history) && n < |lengths| && |pages| == |lengths|
    requires forall i :: 0 <= i < |pages| ==> pages[i].Ok? && pages[i].value.entries == Part(lengths, history, i)
    ensures Joined(pages[..n + 1]) == history[Begin(lengths)..lengths[n]]
  {
    assert pages[..n + 1][..n] == pages[..n];
    if n > 0 {
      PartsJoin(pages, lengths, history, n - 1);
      assert history[Begin(lengths)..lengths[n - 1]] + history[lengths[n - 1]..lengths[n]] ==
        history[Begin(lengths)..lengths[n]];
    }
  }

  lemma ToldPart(boot: string, lengths: seq<nat>, history: seq<Entry>, i: nat)
    requires Growing(lengths, history) && i < |lengths| && NoReset(lengths)
    ensures Told(boot, lengths, history, i).entries == Part(lengths, history, i)
  {
    if i > 0 { assert !Gap(lengths, i); }
    assert history[..lengths[i]][Begin(lengths)..] == history[Begin(lengths)..lengths[i]];
  }

  lemma ResetsAreGaps(boot: string, lengths: seq<nat>, history: seq<Entry>)
    requires IsBoot(boot) && Growing(lengths, history)
    requires forall r :: r in Follow(ReaderOf(boot), lengths, history, |lengths|) ==> !IsReset(r)
    ensures NoReset(lengths)
  {
    forall i | 0 < i < |lengths|
      ensures !Gap(lengths, i)
    {
      ResetsExactly(boot, lengths, history, i);
      assert !IsReset(Follow(ReaderOf(boot), lengths, history, |lengths|)[i]);
    }
  }

  /** Without a reset, the pages joined are the history from the first page on: no gap and no entry twice. */
  lemma FollowedHistory(boot: string, lengths: seq<nat>, history: seq<Entry>)
    requires IsBoot(boot) && Growing(lengths, history) && lengths != []
    requires forall r :: r in Follow(ReaderOf(boot), lengths, history, |lengths|) ==> !IsReset(r)
    ensures var start := if lengths[0] <= CAPACITY then 0 else lengths[0] - CAPACITY;
            Joined(Follow(ReaderOf(boot), lengths, history, |lengths|)) == history[start..lengths[|lengths| - 1]]
  {
    ResetsAreGaps(boot, lengths, history);
    var pages := Follow(ReaderOf(boot), lengths, history, |lengths|);
    forall i | 0 <= i < |pages|
      ensures pages[i].Ok? && pages[i].value.entries == Part(lengths, history, i)
    {
      FollowIsTold(boot, lengths, history, i);
      FollowAt(ReaderOf(boot), lengths, history, |lengths|, i);
      ToldPart(boot, lengths, history, i);
    }
    PartsJoin(pages, lengths, history, |lengths| - 1);
    assert pages[..|lengths|] == pages;
  }

  /** A cursor from another run of the process is never read on from. */
  lemma OtherRunResets(boot: string, other: string, history: seq<Entry>, n: nat)
    requires IsBoot(other) && boot != other && n < UINT64
    ensures PageOf(boot, history, CursorFor(other, n)) ==
            Ok(Page(Retained(history), CursorFor(boot, |history|), true))
  {
    CursorRoundTrip(other, n);
  }
}
