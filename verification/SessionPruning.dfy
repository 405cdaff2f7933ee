/** Bounded pruning of the Browser session files, and its closed form. */
module SessionPruning {
  import opened Basics

  const SESSION_LIMIT: nat := 256
  const SCAN_LIMIT: nat := 512
  /** Thirty days, in milliseconds. */
  const RETENTION: int := 2_592_000_000

  /** A file of the sessions directory: one that pruning refuses (not a regular
      session file, unreadable, or without a valid time), or a session. */
  datatype Entry = Broken | Session(id: nat, updated: int)

  /** The session of the active lease, unless there is none or it has expired. */
  datatype Active = NoActive | ActiveSession(id: nat) | ActiveBroken

  // ---------- The closed form ----------

  predicate Readable(files: map<nat, Entry>) {
    forall p :: p in files ==> files[p].Session?
  }

  /** Everything but the file of the acquiring Run and of the active session. */
  function Candidates(files: map<nat, Entry>, current: nat, active: Active): set<nat>
    requires Readable(files)
  {
    set p | p in files && p != current && active != ActiveSession(files[p].id)
  }

  /** Older, or as old and first by path. */
  predicate Before(files: map<nat, Entry>, p: nat, q: nat)
    requires Readable(files) && p in files && q in files
  {
    files[p].updated < files[q].updated || (files[p].updated == files[q].updated && p < q)
  }

  function Older(files: map<nat, Entry>, among: set<nat>, p: nat): set<nat>
    requires Readable(files) && p in files && among <= files.Keys
  {
    set q | q in among && Before(files, q, p)
  }

  /** The `n` oldest candidates. */
  function Oldest(files: map<nat, Entry>, among: set<nat>, n: nat): set<nat>
    requires Readable(files) && among <= files.Keys
  {
    set p | p in among && |Older(files, among, p)| < n
  }

  function Expired(files: map<nat, Entry>, among: set<nat>, now: int): set<nat>
    requires Readable(files) && among <= files.Keys
  {
    set p | p in among && files[p].updated < now - RETENTION
  }

  /** How many files may stay: one fewer if the current session is still to be made. */
  function Target(files: map<nat, Entry>, current: nat): nat {
    if current in files then SESSION_LIMIT else SESSION_LIMIT - 1
  }

  /** How many go: all that have expired, and whatever is over the target. */
  function Quota(files: map<nat, Entry>, current: nat, active: Active, now: int): nat
    requires Readable(files)
  {
    Max(|Expired(files, Candidates(files, current, active), now)|, Max(0, |files| - Target(files, current)))
  }

  // ---------- Sorting ----------

  predicate Distinct(s: seq<nat>) {
    forall i, j :: 0 <= i < j < |s| ==> s[i] != s[j]
  }

  function Elements(s: seq<nat>): set<nat> {
    set p | p in s
  }

  predicate Sorted(files: map<nat, Entry>, s: seq<nat>)
    requires Readable(files) && Elements(s) <= files.Keys
  {
    forall i, j :: 0 <= i < j < |s| ==> Before(files, s[i], s[j])
  }

  function Prepend(files: map<nat, Entry>, p: nat, s: seq<nat>): (r: seq<nat>)
    requires Readable(files) && p in files && Elements(s) <= files.Keys && Sorted(files, s)
    requires forall q :: q in Elements(s) ==> Before(files, p, q)
    ensures r == [p] + s && Elements(r) == Elements(s) + {p} && Sorted(files, r)
  {
    assert forall i :: 0 <= i < |s| ==> s[i] in Elements(s);
    [p] + s
  }

  function Insert(files: map<nat, Entry>, p: nat, s: seq<nat>): (r: seq<nat>)
    requires Readable(files) && p in files && p !in s && Elements(s) <= files.Keys && Sorted(files, s)
    ensures Elements(r) == Elements(s) + {p} && Sorted(files, r) && |r| == |s| + 1
  {
    if s == [] then [p]
    else if Before(files, p, s[0]) then
      assert forall q :: q in s[1..] ==> Before(files, s[0], q);
      Prepend(files, p, s)
    else
      assert Elements(s[1..]) <= Elements(s) && s[0] in Elements(s);
      var rest := Insert(files, p, s[1..]);
      assert s == [s[0]] + s[1..];
      assert forall q :: q in Elements(rest) ==> q == p || q in s[1..];
      Prepend(files, s[0], rest)
  }

  /** Stands for the library's sort; the order has no ties. */
  function Sort(files: map<nat, Entry>, s: seq<nat>): (r: seq<nat>)
    requires Readable(files) && Distinct(s) && Elements(s) <= files.Keys
    ensures Elements(r) == Elements(s) && Sorted(files, r) && |r| == |s|
  {
    if s == [] then []
    else
      assert Elements(s) == Elements(s[1..]) + {s[0]};
      var rest := Sort(files, s[1..]);
      assert s[0] !in s[1..];
      assert s[0] in Elements(rest) <==> s[0] in Elements(s[1..]);
      Insert(files, s[0], rest)
  }

  lemma {:induction false} SizeOfElements(s: seq<nat>)
    requires Distinct(s)
    ensures |Elements(s)| == |s|
  {
    if s != [] {
      SizeOfElements(s[1..]);
      assert s[0] !in s[1..];
      assert Elements(s) == Elements(s[1..]) + {s[0]};
    }
  }

  /** In sorted order the first `n` are the `n` oldest. */
  lemma PrefixIsOldest(files: map<nat, Entry>, s: seq<nat>, n: nat)
    requires Readable(files) && Elements(s) <= files.Keys && Sorted(files, s) && n <= |s|
    ensures Elements(s[..n]) == Oldest(files, Elements(s), n)
  {
    forall i | 0 <= i < |s|
      ensures |Older(files, Elements(s), s[i])| == i
    {
      OlderIsPrefix(files, s, i);
    }
    forall p | p in Elements(s)
      ensures p in Elements(s[..n]) <==> p in Oldest(files, Elements(s), n)
    {
      var i :| 0 <= i < |s| && s[i] == p;
      if i < n {
        assert s[..n][i] == p;
      }
    }
  }

  lemma OlderIsPrefix(files: map<nat, Entry>, s: seq<nat>, i: nat)
    requires Readable(files) && Elements(s) <= files.Keys && Sorted(files, s) && i < |s|
    ensures |Older(files, Elements(s), s[i])| == i
  {
    forall q | q in Elements(s)
      ensures q in Elements(s[..i]) <==> Before(files, q, s[i])
    {
      var j :| 0 <= j < |s| && s[j] == q;
      if j < i {
        assert s[..i][j] == q;
      } else {
        assert j > i ==> Before(files, s[i], s[j]);
      }
    }
    assert Older(files, Elements(s), s[i]) == Elements(s[..i]);
    assert Distinct(s[..i]) by {
      forall a, b | 0 <= a < b < i
        ensures s[..i][a] != s[..i][b]
      {
        assert Before(files, s[a], s[b]);
      }
    }
    SizeOfElements(s[..i]);
  }

  /** The expired candidates come first. */
  lemma ExpiredArePrefix(files: map<nat, Entry>, s: seq<nat>, now: int, n: nat)
    requires Readable(files) && Elements(s) <= files.Keys && Sorted(files, s) && n <= |s|
    requires forall i :: 0 <= i < n ==> files[s[i]].updated < now - RETENTION
    requires n < |s| ==> files[s[n]].updated >= now - RETENTION
    ensures |Expired(files, Elements(s), now)| == n
  {
    forall i, j | 0 <= i < j < |s|
      ensures s[i] != s[j]
    {
      assert Before(files, s[i], s[j]);
    }
    forall p | p in Elements(s)
      ensures p in Elements(s[..n]) <==> files[p].updated < now - RETENTION
    {
      var i :| 0 <= i < |s| && s[i] == p;
      if i < n {
        assert s[..n][i] == p;
      } else {
        assert i > n ==> Before(files, s[n], s[i]);
        assert p !in s[..n];
      }
    }
    assert Expired(files, Elements(s), now) == Elements(s[..n]);
    SizeOfElements(s[..n]);
  }

  // ---------- What goes and what stays ----------

  /** `p` is older than `q`, by time and then by path. */
  predicate Earlier(files: map<nat, Entry>, p: nat, q: nat) {
    && p in files && q in files && files[p].Session? && files[q].Session?
    && (files[p].updated < files[q].updated || (files[p].updated == files[q].updated && p < q))
  }

  /** Whatever goes is older than whatever stays. */
  lemma OldestAreEarlier(files: map<nat, Entry>, among: set<nat>, n: nat, p: nat, q: nat)
    requires Readable(files) && among <= files.Keys && p in Oldest(files, among, n) && q in among - Oldest(files, among, n)
    ensures Earlier(files, p, q)
  {
    if !Earlier(files, p, q) {
      var before, after := Older(files, among, q), Older(files, among, p);
      assert before + {q} <= after;
      Smaller(before + {q}, after);
    }
  }

  lemma Smaller(a: set<nat>, b: set<nat>)
    requires a <= b
    ensures |a| <= |b|
  {
    assert b == a + (b - a) && |b| == |a| + |b - a|;
  }

  /** All expired candidates are among as many of the oldest. */
  lemma ExpiredGo(files: map<nat, Entry>, among: set<nat>, now: int, n: nat, p: nat)
    requires Readable(files) && among <= files.Keys && |Expired(files, among, now)| <= n
    requires p in among && files[p].updated < now - RETENTION
    ensures p in Oldest(files, among, n)
  {
    var older, expired := Older(files, among, p), Expired(files, among, now);
    assert older + {p} <= expired;
    Smaller(older + {p}, expired);
  }

  /** One that goes without having expired comes after all that have. */
  lemma OthersGoAfterExpired(files: map<nat, Entry>, among: set<nat>, now: int, n: nat, p: nat)
    requires Readable(files) && among <= files.Keys
    requires p in Oldest(files, among, n) && files[p].updated >= now - RETENTION
    ensures |Expired(files, among, now)| < n
  {
    Smaller(Expired(files, among, now), Older(files, among, p));
  }

  /** The current and the active session are not pruned. */
  predicate Protected(files: map<nat, Entry>, current: nat, active: Active, p: nat) {
    p == current || (p in files && files[p].Session? && active == ActiveSession(files[p].id))
  }

  /** What a pruning that could remove everything has done: protected sessions stay, the
      others go oldest first, all that have expired go, and more than those only as far
      as the limit demands. */
  ghost predicate PrunedWell(before: map<nat, Entry>, after: map<nat, Entry>, current: nat, active: Active, now: int) {
    && (forall p :: p in after ==> p in before && after[p] == before[p])
    && (forall p :: p in before && Protected(before, current, active, p) ==> p in after)
    && (forall p, q :: p in before && p !in after && q in after && !Protected(before, current, active, q) ==> Earlier(before, p, q))
    && (forall p :: p in before && before[p].Session? && before[p].updated < now - 2_592_000_000 ==>
          p in after ==> Protected(before, current, active, p))
    && (forall p :: p in before && p !in after && before[p].Session? && before[p].updated >= now - 2_592_000_000 ==>
          |after| >= if current in before then 256 else 255)
  }

  lemma QuotaPrunesWell(before: map<nat, Entry>, current: nat, active: Active, now: int)
    requires Readable(before)
    ensures var among, quota := Candidates(before, current, active), Quota(before, current, active, now);
            |Oldest(before, among, quota)| <= quota ==>
              PrunedWell(before, before - Oldest(before, among, quota), current, active, now)
  {
    var among, quota := Candidates(before, current, active), Quota(before, current, active, now);
    var gone := Oldest(before, among, quota);
    var after := before - gone;
    forall p, q | p in before && p !in after && q in after && !Protected(before, current, active, q)
      ensures Earlier(before, p, q)
    {
      OldestAreEarlier(before, among, quota, p, q);
    }
    forall p | p in before && before[p].updated < now - RETENTION && p in after
      ensures Protected(before, current, active, p)
    {
      if p in among {
        ExpiredGo(before, among, now, quota, p);
      }
    }
    assert after.Keys == before.Keys - gone && |before.Keys - gone| == |before.Keys| - |gone|;
    assert |after| == |after.Keys| && |before| == |before.Keys|;
    forall p | p in before && p !in after && before[p].updated >= now - RETENTION
      ensures |gone| <= quota ==> |after| >= if current in before then 256 else 255
    {
      OthersGoAfterExpired(before, among, now, quota, p);
    }
  }

  // ---------- Pruning ----------

  class Directory {
    var files: map<nat, Entry>

    constructor (files: map<nat, Entry>)
      ensures this.files == files
    {
      this.files := files;
    }

    /** Reads every entry; a broken one stops everything. */
    method Collect(listing: seq<nat>, current: nat, active: Active) returns (ok: bool, candidates: seq<nat>, kept: nat)
      requires Distinct(listing) && Elements(listing) == files.Keys
      ensures ok <==> Readable(files)
      ensures ok ==> Distinct(candidates) && Elements(candidates) == Candidates(files, current, active)
      ensures ok ==> |candidates| + kept == |files|
    {
      candidates, kept := [], 0;
      var i := 0;
      while i < |listing|
        invariant 0 <= i <= |listing| && |candidates| + kept == i
        invariant forall j :: 0 <= j < i ==> files[listing[j]].Session?
        invariant Distinct(candidates) && forall p :: p in candidates ==> p in listing[..i]
        invariant forall p :: p in candidates <==>
                    p in listing[..i] && p != current && active != ActiveSession(files[p].id)
      {
        var p := listing[i];
        assert p in Elements(listing);
        if files[p].Broken? {
          return false, [], 0;
        }
        assert listing[..i + 1] == listing[..i] + [p];
        if p == current || active == ActiveSession(files[p].id) {
          kept := kept + 1;
        } else {
          candidates := candidates + [p];
        }
        i := i + 1;
      }
      assert listing[..i] == listing;
      ok := true;
      forall p | p in files
        ensures files[p].Session?
      {
        assert p in Elements(listing);
      }
      SizeOfElements(listing);
      assert |files| == |files.Keys|;
    }

    /** Removes the oldest candidates while they have expired or there are too many;
        a removal that fails stops it. */
    method RemoveOldest(sorted: seq<nat>, kept: nat, target: nat, now: int, removable: set<nat>)
      returns (n: nat, finished: bool)
      requires Readable(files) && Elements(sorted) <= files.Keys && Sorted(files, sorted)
      modifies this
      ensures n <= |sorted| && files == old(files) - Elements(sorted[..n])
      ensures forall i :: 0 <= i < n ==>
                sorted[i] in removable && (old(files)[sorted[i]].updated < now - RETENTION || |sorted| + kept - i > target)
      ensures finished && n < |sorted| ==>
                old(files)[sorted[n]].updated >= now - RETENTION && |sorted| + kept - n <= target
      ensures !finished ==> n < |sorted| && sorted[n] !in removable
    {
      n := 0;
      while n < |sorted|
        invariant 0 <= n <= |sorted| && files == old(files) - Elements(sorted[..n])
        invariant forall i :: 0 <= i < n ==>
                    sorted[i] in removable && (old(files)[sorted[i]].updated < now - RETENTION || |sorted| + kept - i > target)
      {
        var p := sorted[n];
        StillThere(old(files), sorted, n);
        if files[p].updated >= now - RETENTION && |sorted| + kept - n <= target {
          break;
        }
        if p !in removable {
          return n, false;
        }
        files := files - {p};
        assert sorted[..n + 1] == sorted[..n] + [p];
        n := n + 1;
      }
      finished := true;
    }

    /** The whole of pruning: which files go, and when it succeeds. */
    method Prune(listing: seq<nat>, current: nat, active: Active, now: int, removable: set<nat>) returns (ok: bool)
      requires Distinct(listing) && Elements(listing) == files.Keys
      modifies this
      ensures !Examined(old(files), active) ==> !ok && files == old(files)
      ensures Examined(old(files), active) && Candidates(old(files), current, active) <= removable ==>
                files == old(files) - Oldest(old(files), Candidates(old(files), current, active),
                                             Quota(old(files), current, active, now))
      ensures Examined(old(files), active) && Candidates(old(files), current, active) <= removable ==>
                (ok <==> |old(files)| - |Candidates(old(files), current, active)| <= Target(old(files), current))
      ensures Examined(old(files), active) && Candidates(old(files), current, active) <= removable ==>
                PrunedWell(old(files), files, current, active, now)
      ensures ok ==> |files.Keys + {current}| <= SESSION_LIMIT
      ensures forall p :: p in old(files) && p !in files ==>
                && Readable(old(files)) && p in Candidates(old(files), current, active)
                && p in Oldest(old(files), Candidates(old(files), current, active), Quota(old(files), current, active, now))
    {
      if |files| > SCAN_LIMIT || active.ActiveBroken? {
        return false;
      }
      var candidates, kept;
      ok, candidates, kept := Collect(listing, current, active);
      if !ok {
        return false;
      }
      ghost var among := Candidates(files, current, active);
      var sorted := Sort(files, candidates);
      var target := Target(files, current);
      var n, finished := RemoveOldest(sorted, kept, target, now, removable);
      CountsAgree(old(files), sorted, current, active, now, kept, n, finished);
      Remaining(old(files), sorted, n);
      QuotaPrunesWell(old(files), current, active, now);
      SizeOfPrefix(old(files), sorted, n);
      ok := finished && |sorted| + kept - n <= target;
      if ok {
        CurrentFits(old(files), files, current);
      }
    }
  }

  predicate Examined(files: map<nat, Entry>, active: Active) {
    |files| <= SCAN_LIMIT && !active.ActiveBroken? && Readable(files)
  }

  lemma StillThere(files: map<nat, Entry>, sorted: seq<nat>, n: nat)
    requires Readable(files) && Elements(sorted) <= files.Keys && Sorted(files, sorted) && n < |sorted|
    ensures sorted[n] in files - Elements(sorted[..n])
  {
    assert sorted[n] in Elements(sorted);
    forall i | 0 <= i < n
      ensures sorted[..n][i] != sorted[n]
    {
      assert Before(files, sorted[i], sorted[n]);
    }
  }

  lemma Remaining(files: map<nat, Entry>, sorted: seq<nat>, n: nat)
    requires Readable(files) && Elements(sorted) <= files.Keys && Sorted(files, sorted) && n <= |sorted|
    ensures |files - Elements(sorted[..n])| == |files| - n
  {
    assert Distinct(sorted[..n]) by {
      forall a, b | 0 <= a < b < n
        ensures sorted[..n][a] != sorted[..n][b]
      {
        assert Before(files, sorted[a], sorted[b]);
      }
    }
    SizeOfElements(sorted[..n]);
    var gone := Elements(sorted[..n]);
    assert gone <= files.Keys;
    assert (files - gone).Keys == files.Keys - gone;
    assert |files.Keys - gone| == |files.Keys| - |gone|;
  }

  lemma CurrentFits(before: map<nat, Entry>, after: map<nat, Entry>, current: nat)
    requires |after| <= Target(before, current) && (current in before ==> current in after)
    ensures |after.Keys + {current}| <= SESSION_LIMIT
  {
    if current in before {
      assert after.Keys + {current} == after.Keys;
    }
  }

  lemma SizeOfPrefix(files: map<nat, Entry>, sorted: seq<nat>, n: nat)
    requires Readable(files) && Elements(sorted) <= files.Keys && Sorted(files, sorted) && n <= |sorted|
    ensures |Elements(sorted[..n])| == n
  {
    assert Distinct(sorted[..n]) by {
      forall a, b | 0 <= a < b < n
        ensures sorted[..n][a] != sorted[..n][b]
      {
        assert Before(files, sorted[a], sorted[b]);
      }
    }
    SizeOfElements(sorted[..n]);
  }

  /** The loop's stopping point is the closed form's quota. */
  lemma CountsAgree(files: map<nat, Entry>, sorted: seq<nat>, current: nat, active: Active, now: int,
                    kept: nat, n: nat, finished: bool)
    requires Readable(files) && Elements(sorted) == Candidates(files, current, active) && Sorted(files, sorted)
    requires |sorted| + kept == |files| && n <= |sorted|
    requires var target := Target(files, current);
             && (forall i :: 0 <= i < n ==> files[sorted[i]].updated < now - RETENTION || |sorted| + kept - i > target)
             && (finished && n < |sorted| ==> files[sorted[n]].updated >= now - RETENTION && |sorted| + kept - n <= target)
    ensures |Candidates(files, current, active)| == |sorted| && n <= Quota(files, current, active, now)
    ensures Elements(sorted[..n]) <= Oldest(files, Candidates(files, current, active), Quota(files, current, active, now))
    ensures finished ==>
              Elements(sorted[..n]) == Oldest(files, Candidates(files, current, active), Quota(files, current, active, now))
  {
    var quota := Quota(files, current, active, now);
    var e := FirstFresh(files, sorted, now);
    ExpiredArePrefix(files, sorted, now, e);
    PrefixIsOldest(files, sorted, n);
    PrefixIsOldest(files, sorted, |sorted|);
    PrefixIsOldest(files, sorted, 0);
    assert sorted[..|sorted|] == sorted;
    forall a, b | 0 <= a < b < |sorted|
      ensures sorted[a] != sorted[b]
    {
      assert Before(files, sorted[a], sorted[b]);
    }
    SizeOfElements(sorted);
    assert n <= quota by {
      if n > e {
        assert files[sorted[n - 1]].updated >= now - RETENTION by {
          assert e < n - 1 ==> Before(files, sorted[e], sorted[n - 1]);
        }
      }
    }
    if finished && n < |sorted| {
      assert e <= n;
    }
  }

  /** How many of the sorted candidates have expired. */
  function FirstFresh(files: map<nat, Entry>, sorted: seq<nat>, now: int): (e: nat)
    requires Readable(files) && Elements(sorted) <= files.Keys && Sorted(files, sorted)
    ensures e <= |sorted| && (forall i :: 0 <= i < e ==> files[sorted[i]].updated < now - RETENTION)
    ensures e < |sorted| ==> files[sorted[e]].updated >= now - RETENTION
  {
    if sorted == [] then 0
    else
      var last := |sorted| - 1;
      assert sorted[last] in Elements(sorted);
      if files[sorted[last]].updated < now - RETENTION then
        assert forall i :: 0 <= i < last ==> Before(files, sorted[i], sorted[last]);
        |sorted|
      else
        assert Elements(sorted[..last]) <= Elements(sorted);
        FirstFresh(files, sorted[..last], now)
  }
}
