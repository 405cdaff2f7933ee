/** The credential proxy's observer of an upstream response body. It reports a
    stream that ended before the completion marker, although it keeps only
    marker-length-minus-one bytes between two reads. */
module CompletionObserver {
  import opened Basics

  /** The marker starts at position `i` of `text`. */
  predicate OccursAt(text: seq<byte>, marker: seq<byte>, i: nat) {
    i + |marker| <= |text| && text[i..i + |marker|] == marker
  }

  predicate Contains(text: seq<byte>, marker: seq<byte>) {
    exists i :: 0 <= i <= |text| && OccursAt(text, marker, i)
  }

  function Suffix(text: seq<byte>, keep: nat): seq<byte> {
    if |text| > keep then text[|text| - keep..] else text
  }

  /** A marker that first becomes visible with `chunk` lies inside the window
      made of the kept suffix and the chunk. */
  lemma WindowDecides(read: seq<byte>, chunk: seq<byte>, marker: seq<byte>)
    requires |marker| > 0
    ensures Contains(read + chunk, marker) <==>
            Contains(read, marker) || Contains(Suffix(read, |marker| - 1) + chunk, marker)
  {
    var whole, tail := read + chunk, Suffix(read, |marker| - 1);
    var cut := |read| - |tail|;
    assert whole[cut..] == tail + chunk;
    if Contains(read, marker) {
      var i :| 0 <= i <= |read| && OccursAt(read, marker, i);
      assert whole[i..i + |marker|] == read[i..i + |marker|];
      assert OccursAt(whole, marker, i);
    }
    if Contains(tail + chunk, marker) {
      var i :| 0 <= i <= |tail + chunk| && OccursAt(tail + chunk, marker, i);
      assert whole[cut + i..cut + i + |marker|] == (tail + chunk)[i..i + |marker|];
      assert OccursAt(whole, marker, cut + i);
    }
    if Contains(whole, marker) {
      var i :| 0 <= i <= |whole| && OccursAt(whole, marker, i);
      if i + |marker| <= |read| {
        assert read[i..i + |marker|] == whole[i..i + |marker|];
        assert OccursAt(read, marker, i);
      } else {
        assert (tail + chunk)[i - cut..i - cut + |marker|] == whole[i..i + |marker|];
        assert OccursAt(tail + chunk, marker, i - cut);
      }
    }
  }

  lemma SuffixOfWindow(read: seq<byte>, chunk: seq<byte>, keep: nat)
    ensures Suffix(Suffix(read, keep) + chunk, keep) == Suffix(read + chunk, keep)
  {
  }

  class ResponseCompletionObserver {
    const marker: seq<byte>
    var bytesRead: int
    var tail: seq<byte>
    var completed: bool
    var finished: bool
    /** Number of "incomplete upstream stream" lines written so far. */
    var incompleteReports: nat
    /** Everything the body has delivered, which the observer does not keep. */
    ghost var delivered: seq<byte>

    ghost predicate Valid()
      reads this
    {
      && |marker| > 0
      && bytesRead == |delivered|
      && completed == Contains(delivered, marker)
      && (!completed ==> tail == Suffix(delivered, |marker| - 1))
      && |tail| < |marker|
      && (incompleteReports == 0 || finished)
      && incompleteReports <= 1
    }

    constructor (marker: seq<byte>)
      requires |marker| > 0
      ensures Valid() && this.marker == marker
      ensures delivered == [] && !finished && incompleteReports == 0
    {
      this.marker := marker;
      bytesRead, tail := 0, [];
      completed, finished, incompleteReports := false, false, 0;
      delivered := [];
    }

    /** One Read: the body put `chunk` into the buffer and, when `failed`, also
        returned an error (end of file included). */
    method Read(chunk: seq<byte>, failed: bool)
      requires Valid()
      modifies this
      ensures Valid()
      ensures delivered == old(delivered) + chunk
      ensures finished == (old(finished) || failed)
      ensures incompleteReports ==
              if failed && !old(finished) && !Contains(delivered, marker)
              then 1 else old(incompleteReports)
    {
      WindowDecides(delivered, chunk, marker);
      SuffixOfWindow(delivered, chunk, |marker| - 1);
      bytesRead := bytesRead + |chunk|;
      if |chunk| > 0 && !completed {
        var window := tail + chunk;
        completed := Contains(window, marker);
        var keep := |marker| - 1;
        if |window| > keep {
          window := window[|window| - keep..];
        }
        tail := window;
      }
      delivered := delivered + chunk;
      if |chunk| == 0 {
        assert delivered == old(delivered);
      }
      if failed {
        Finish();
      }
    }

    method Close()
      requires Valid()
      modifies this
      ensures Valid() && finished && delivered == old(delivered)
      ensures incompleteReports ==
              if !old(finished) && !Contains(delivered, marker) then 1 else old(incompleteReports)
    {
      Finish();
    }

    method Finish()
      requires Valid()
      modifies `finished, `incompleteReports
      ensures Valid() && finished
      ensures incompleteReports == if old(finished || completed) then old(incompleteReports) else 1
    {
      if finished {
        return;
      }
      finished := true;
      if completed {
        return;
      }
      incompleteReports := 1;
    }
  }

  /** The whole life of one body: it is cut into `chunks` in any way, and the
      last read reports the end. */
  method Observe(chunks: seq<seq<byte>>, marker: seq<byte>) returns (completed: bool, reports: nat, kept: nat)
    requires |marker| > 0
    ensures completed == Contains(Flatten(chunks), marker)
    ensures reports == if Contains(Flatten(chunks), marker) then 0 else 1
    ensures kept < |marker|
  {
    var observer := new ResponseCompletionObserver(marker);
    var i := 0;
    while i < |chunks|
      invariant 0 <= i <= |chunks|
      invariant fresh(observer) && observer.Valid() && observer.marker == marker
      invariant !observer.finished && observer.incompleteReports == 0
      invariant observer.delivered + Flatten(chunks[i..]) == Flatten(chunks)
    {
      observer.Read(chunks[i], false);
      i := i + 1;
    }
    assert observer.delivered == Flatten(chunks);
    observer.Read([], true);
    assert observer.delivered == Flatten(chunks);
    observer.Close();
    return observer.completed, observer.incompleteReports, |observer.tail|;
  }
}
