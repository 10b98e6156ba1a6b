/**
 * The live card scanner: each recognition response either reports a new
 * card once or is ignored, so the reported cards are the matched cards
 * with consecutive repeats removed.
 */
module CardScanner {
  import opened Wrappers

  /** One response of the recognition endpoint, or a failed request. */
  datatype ScanResponse = FetchError | Response(isMatch: bool, card: Option<string>)

  /** The card of a response that passes `data.match && data.card`. */
  function MatchedCard(r: ScanResponse): (m: Option<string>)
    ensures m.Some? <==> r.Response? && r.isMatch && r.card.Some? && r.card.value != ""
    ensures m.Some? ==> m == r.card
  {
    if r.Response? && r.isMatch && r.card.Some? && r.card.value != "" then r.card else None
  }

  /** The matched cards of a run of responses, in order. */
  function Matches(rs: seq<ScanResponse>): seq<string>
  {
    if rs == [] then []
    else
      var m := MatchedCard(rs[|rs| - 1]);
      Matches(rs[..|rs| - 1]) + (if m.Some? then [m.value] else [])
  }

  /** `s` with every element equal to its predecessor dropped. */
  function Collapse(s: seq<string>): seq<string>
  {
    if s == [] then []
    else
      var init := s[..|s| - 1];
      Collapse(init) + (if init != [] && init[|init| - 1] == s[|s| - 1] then [] else [s[|s| - 1]])
  }

  /** `lastMatch` after a run of responses. */
  function LastMatch(rs: seq<ScanResponse>): Option<string>
  {
    if rs == [] then None
    else
      var m := MatchedCard(rs[|rs| - 1]);
      if m.Some? && m != LastMatch(rs[..|rs| - 1]) then m else LastMatch(rs[..|rs| - 1])
  }

  /** The `onCardFound` calls of a run of responses, in order. */
  function Callbacks(rs: seq<ScanResponse>): seq<string>
  {
    if rs == [] then []
    else
      var init := rs[..|rs| - 1];
      var m := MatchedCard(rs[|rs| - 1]);
      Callbacks(init) + (if m.Some? && m != LastMatch(init) then [m.value] else [])
  }

  /** `lastMatch` is the most recent matched card; non-matches never reset it. */
  lemma {:induction false} LastMatchIsLatest(rs: seq<ScanResponse>)
    ensures LastMatch(rs) == if Matches(rs) == [] then None else Some(Matches(rs)[|Matches(rs)| - 1])
  {
    if rs != [] {
      LastMatchIsLatest(rs[..|rs| - 1]);
    }
  }

  /** The callbacks are the matched cards with consecutive repeats removed. */
  lemma {:induction false} CallbacksCollapseMatches(rs: seq<ScanResponse>)
    ensures Callbacks(rs) == Collapse(Matches(rs))
  {
    if rs != [] {
      var init := rs[..|rs| - 1];
      CallbacksCollapseMatches(init);
      LastMatchIsLatest(init);
      var m := MatchedCard(rs[|rs| - 1]);
      var mi := Matches(init);
      if m.Some? {
        var ms := Matches(rs);
        assert ms == mi + [m.value];
        assert ms[..|ms| - 1] == mi;
        assert Collapse(ms) == Collapse(mi) + (if mi != [] && mi[|mi| - 1] == m.value then [] else [m.value]);
        assert (m != LastMatch(init)) == !(mi != [] && mi[|mi| - 1] == m.value);
      } else {
        assert Matches(rs) == mi + [] == mi;
        assert Callbacks(rs) == Callbacks(init) + [] == Callbacks(init);
      }
    }
  }

  /** No card is reported twice in a row. */
  lemma {:induction false} CollapseNoAdjacentRepeats(s: seq<string>)
    ensures forall i :: 0 < i < |Collapse(s)| ==> Collapse(s)[i - 1] != Collapse(s)[i]
    ensures s != [] ==> Collapse(s) != [] && Collapse(s)[|Collapse(s)| - 1] == s[|s| - 1]
  {
    if s != [] {
      var init := s[..|s| - 1];
      CollapseNoAdjacentRepeats(init);
    }
  }

  class Scanner {
    var isScanning: bool
    var lastMatch: Option<string>
    /** The `onCardFound` calls, in order. */
    var found: seq<string>
    /** Every response handled so far. */
    ghost var history: seq<ScanResponse>

    ghost predicate Valid()
      reads this
    {
      lastMatch == LastMatch(history) && found == Callbacks(history)
    }

    constructor ()
      ensures !isScanning && lastMatch == None && found == [] && history == []
      ensures Valid()
    {
      isScanning, lastMatch, found := false, None, [];
      history := [];
    }

    /** The scan button. */
    method ToggleScan()
      modifies this`isScanning
      ensures isScanning == !old(isScanning)
    {
      isScanning := !isScanning;
    }

    /** The dedupe step for one response. */
    method OnScanResult(r: ScanResponse)
      requires Valid()
      modifies this`lastMatch, this`found, this`history
      ensures Valid() && history == old(history) + [r]
      ensures var m := MatchedCard(r);
        && (m.Some? && m != old(lastMatch) ==> lastMatch == m && found == old(found) + [m.value])
        && (!(m.Some? && m != old(lastMatch)) ==> lastMatch == old(lastMatch) && found == old(found))
    {
      if r.Response? && r.isMatch && r.card.Some? && r.card.value != "" {
        if r.card != lastMatch {
          lastMatch := r.card;
          found := found + [r.card.value];
        }
      }
      history := history + [r];
      assert history[..|history| - 1] == old(history);
    }

    /** One tick of the interval, which runs only while scanning a remote stream. */
    method Tick(hasRemoteStream: bool, r: ScanResponse)
      requires Valid()
      modifies this`lastMatch, this`found, this`history
      ensures Valid()
      ensures isScanning && hasRemoteStream ==> history == old(history) + [r]
      ensures !(isScanning && hasRemoteStream) ==>
        history == old(history) && lastMatch == old(lastMatch) && found == old(found)
    {
      if isScanning && hasRemoteStream {
        OnScanResult(r);
      }
    }
  }
}
