/** What a Browser Runtime server has been asked, as a history, and what can be
    read off it: the requests charged to an attachment and the clicks blocked in a
    Run and on a page. */
module RequestHistory {
  import opened Basics

  const CLOSE_LIMIT: nat := 3
  const NAVIGATION_CLICK_LIMIT: nat := 3
  const RUN_CLICK_LIMIT: nat := 12
  const VIEWER_LIMIT: nat := 8192

  /** One attachment under one pair of epochs. */
  datatype Scope = Scope(run: nat, attachment: nat, sessionEpoch: nat, controlEpoch: nat)

  datatype Place = Place(session: nat, sessionEpoch: nat)

  /** The page as far as the server knows it; engine and generation are 0 until
      one has been reported. */
  datatype Page = Page(run: Option<nat>, place: Option<Place>, engine: nat, generation: nat)

  /** An event: a request that was charged or refused, the end of an attachment, a
      report of the page or of a blocked click that was accepted, or a reset. */
  datatype What = Action(id: nat, cost: nat) | Close(id: nat) | Viewer(id: nat) | Refused | Terminated
                | Reported | Blocked | Reset

  /** With the scope and page that hold afterwards. */
  datatype Entry = Entry(what: What, scope: Option<Scope>, page: Page)

  // ---------- The last stretch of a history ----------

  /** Where the last stretch of equal keys begins. */
  function Start<K(==)>(keys: seq<K>): (s: nat)
    ensures s <= |keys| && (keys != [] ==> s < |keys|)
    ensures forall i :: s <= i < |keys| ==> keys[i] == keys[|keys| - 1]
    ensures 0 < s ==> keys[s - 1] != keys[s]
  {
    if |keys| <= 1 then 0
    else if keys[|keys| - 1] == keys[|keys| - 2] then Start(keys[..|keys| - 1])
    else |keys| - 1
  }

  lemma StartAfter<K>(keys: seq<K>, k: K)
    ensures Start(keys + [k]) == if keys == [] || k == keys[|keys| - 1] then Start(keys) else |keys|
  {
    assert (keys + [k])[..|keys|] == keys;
  }

  function Scopes(log: seq<Entry>): seq<Option<Scope>> { seq(|log|, i requires 0 <= i < |log| => log[i].scope) }

  function Runs(log: seq<Entry>): seq<Option<nat>> { seq(|log|, i requires 0 <= i < |log| => log[i].page.run) }

  function Pages(log: seq<Entry>): seq<Page> { seq(|log|, i requires 0 <= i < |log| => log[i].page) }

  /** The events since the scope, the Run or the page last changed. */
  function ScopeTail(log: seq<Entry>): seq<Entry> { log[Start(Scopes(log))..] }

  function RunTail(log: seq<Entry>): seq<Entry> { log[Start(Runs(log))..] }

  function PageTail(log: seq<Entry>): seq<Entry> { log[Start(Pages(log))..] }

  lemma ScopeTailAfter(log: seq<Entry>, e: Entry)
    ensures ScopeTail(log + [e]) == if log == [] || e.scope == log[|log| - 1].scope then ScopeTail(log) + [e] else [e]
  {
    assert Scopes(log + [e]) == Scopes(log) + [e.scope];
    StartAfter(Scopes(log), e.scope);
  }

  lemma RunTailAfter(log: seq<Entry>, e: Entry)
    ensures RunTail(log + [e]) == if log == [] || e.page.run == log[|log| - 1].page.run then RunTail(log) + [e] else [e]
  {
    assert Runs(log + [e]) == Runs(log) + [e.page.run];
    StartAfter(Runs(log), e.page.run);
  }

  lemma PageTailAfter(log: seq<Entry>, e: Entry)
    ensures PageTail(log + [e]) == if log == [] || e.page == log[|log| - 1].page then PageTail(log) + [e] else [e]
  {
    assert Pages(log + [e]) == Pages(log) + [e.page];
    StartAfter(Pages(log), e.page);
  }

  // ---------- Counting ----------

  /** The identifiers charged, in order. */
  function Ids(log: seq<Entry>): seq<nat> {
    if log == [] then []
    else
      var front := Ids(log[..|log| - 1]);
      match log[|log| - 1].what
      case Action(id, _) => front + [id]
      case Close(id) => front + [id]
      case Viewer(id) => front + [id]
      case _ => front
  }

  function Cost(log: seq<Entry>): nat {
    if log == [] then 0
    else Cost(log[..|log| - 1]) + match log[|log| - 1].what
                                  case Action(_, cost) => cost
                                  case _ => 0
  }

  function Closes(log: seq<Entry>): nat {
    if log == [] then 0 else Closes(log[..|log| - 1]) + (if log[|log| - 1].what.Close? then 1 else 0)
  }

  function Viewers(log: seq<Entry>): nat {
    if log == [] then 0 else Viewers(log[..|log| - 1]) + (if log[|log| - 1].what.Viewer? then 1 else 0)
  }

  function Clicks(log: seq<Entry>): nat {
    if log == [] then 0 else Clicks(log[..|log| - 1]) + (if log[|log| - 1].what.Blocked? then 1 else 0)
  }

  /** The attachment has been ended, or its close attempts are used up. */
  predicate Over(log: seq<Entry>) {
    Closes(log) >= CLOSE_LIMIT || exists i :: 0 <= i < |log| && log[i].what.Terminated?
  }

  predicate NoRepeats(ids: seq<nat>) {
    forall i, j :: 0 <= i < j < |ids| ==> ids[i] != ids[j]
  }

  /** An action came while the attachment was not over. */
  predicate InTime(log: seq<Entry>, i: nat)
    requires i < |log|
  {
    log[i].what.Action? ==> !Over(log[..i])
  }

  /** Everything that admission promises of one attachment's events. */
  predicate Admitted(log: seq<Entry>, limit: nat) {
    && NoRepeats(Ids(log)) && Cost(log) <= limit
    && Closes(log) <= CLOSE_LIMIT && Viewers(log) <= VIEWER_LIMIT
    && forall i :: 0 <= i < |log| ==> InTime(log, i)
  }

  lemma CountsAfter(log: seq<Entry>, e: Entry)
    ensures Ids(log + [e]) == Ids(log) + Ids([e]) && Cost(log + [e]) == Cost(log) + Cost([e])
    ensures Closes(log + [e]) == Closes(log) + Closes([e]) && Viewers(log + [e]) == Viewers(log) + Viewers([e])
    ensures Clicks(log + [e]) == Clicks(log) + Clicks([e])
    ensures Over(log + [e]) <==> Over(log) || e.what.Terminated? || Closes(log + [e]) >= CLOSE_LIMIT
  {
    assert (log + [e])[..|log|] == log;
    assert [e][..0] == [];
    if exists i :: 0 <= i < |log| && log[i].what.Terminated? {
      var i :| 0 <= i < |log| && log[i].what.Terminated?;
      assert (log + [e])[i].what.Terminated?;
    }
    if e.what.Terminated? {
      assert (log + [e])[|log|].what.Terminated?;
    }
  }

  lemma AdmittedAfter(log: seq<Entry>, e: Entry, limit: nat)
    requires Admitted(log, limit)
    requires match e.what
             case Action(id, cost) => id !in Ids(log) && Cost(log) + cost <= limit && !Over(log)
             case Close(id) => id !in Ids(log) && Closes(log) < CLOSE_LIMIT
             case Viewer(id) => id !in Ids(log) && Viewers(log) < VIEWER_LIMIT
             case _ => true
    ensures Admitted(log + [e], limit)
  {
    CountsAfter(log, e);
    assert [e][..0] == [];
    forall i | 0 <= i < |log + [e]|
      ensures InTime(log + [e], i)
    {
      assert (log + [e])[..i] == log[..i];
      assert i < |log| ==> InTime(log, i);
      assert log[..|log|] == log;
    }
  }

  lemma RunClicksAfter(log: seq<Entry>, e: Entry)
    ensures Clicks(RunTail(log + [e])) ==
              (if log == [] || e.page.run == log[|log| - 1].page.run then Clicks(RunTail(log)) else 0) +
              (if e.what.Blocked? then 1 else 0)
  {
    RunTailAfter(log, e);
    CountsAfter(RunTail(log), e);
    CountsAfter([], e);
    assert [] + [e] == [e];
  }

  lemma PageClicksAfter(log: seq<Entry>, e: Entry)
    ensures Clicks(PageTail(log + [e])) ==
              (if log == [] || e.page == log[|log| - 1].page then Clicks(PageTail(log)) else 0) +
              (if e.what.Blocked? then 1 else 0)
  {
    PageTailAfter(log, e);
    CountsAfter(PageTail(log), e);
    CountsAfter([], e);
    assert [] + [e] == [e];
  }

  /** The clicks blocked on a page are among those of its Run. */
  lemma {:induction false} ClicksOfTail(log: seq<Entry>, s: nat, r: nat)
    requires s <= r <= |log|
    ensures Clicks(log[r..]) <= Clicks(log[s..])
    decreases |log|
  {
    if r < |log| {
      var front := log[..|log| - 1];
      ClicksOfTail(front, s, r);
      assert log[r..] == front[r..] + [log[|log| - 1]] && log[s..] == front[s..] + [log[|log| - 1]];
      CountsAfter(front[r..], log[|log| - 1]);
      CountsAfter(front[s..], log[|log| - 1]);
    }
  }

  lemma PageClicksWithinRun(log: seq<Entry>)
    ensures Clicks(PageTail(log)) <= Clicks(RunTail(log))
  {
    if log != [] {
      var s, r := Start(Runs(log)), Start(Pages(log));
      assert s <= r by {
        assert s > 0 ==> Pages(log)[s - 1] != Pages(log)[s];
      }
      ClicksOfTail(log, s, r);
    }
  }

  // ---------- Reports ----------

  /** Between neighbouring events the known generation of an engine does not go back. */
  predicate Forward(log: seq<Entry>, i: nat) {
    0 < i < |log| ==> NotBack(log[i - 1].page, log[i].page)
  }

  predicate NotBack(p: Page, q: Page) {
    SamePlace(p, q) ==> p.generation <= q.generation
  }

  /** While the Run, the place and the engine stay the same, and so without a reset,
      which forgets the engine, the generation never goes back. */
  lemma {:induction false} GenerationsRise(log: seq<Entry>, i: nat, j: nat)
    requires (forall k :: Forward(log, k)) && i <= j < |log|
    requires forall k :: i <= k <= j ==> SamePlace(log[i].page, log[k].page)
    ensures log[i].page.generation <= log[j].page.generation
    decreases j - i
  {
    if i < j {
      GenerationsRise(log, i, j - 1);
      assert Forward(log, j) && SamePlace(log[i].page, log[j - 1].page) && SamePlace(log[i].page, log[j].page);
    }
  }

  predicate SamePlace(p: Page, q: Page) { p.run == q.run && p.place == q.place && p.engine == q.engine }
}
