/** Making room in a conversation that outgrew its context: grow the context, else replace the oldest
    complete turn by a summary once, else drop it. The newest turn is never touched. */
module Compaction {

  import opened Basics

  datatype Mode = Off | On | Auto

  datatype Policy = Policy(grow: Mode, summarize: Mode, trim: Mode, maxCtx: nat)

  /** The chat template and the tokenizer, of which nothing is assumed, and the text that stands for
      an attached medium. */
  datatype Renderer = Renderer(render: seq<Message> -> string, tokens: string -> nat, marker: string)

  const NOTE := "Earlier conversation summary (lossy):\n"

  /** Positions the conversation needs: its rendered prompt and the reserve. */
  function Need(b: Renderer, h: seq<Message>, reserve: nat): nat {
    b.tokens(b.render(h)) + reserve
  }

  function Tokens(b: Renderer, text: string): nat {
    b.tokens(text)
  }

  predicate Contains(text: string, part: string) {
    part <= text || (text != "" && Contains(text[1..], part))
  }

  predicate IsUser(m: Message) {
    m.role == "user"
  }

  /** System text and media may not be summarized or dropped. */
  predicate Protected(b: Renderer, m: Message) {
    m.role == "system" || Contains(m.content, b.marker)
  }

  /** A message is protected exactly when its role says so, or when the marker stands somewhere in it. */
  lemma {:induction false} ProtectedMeans(b: Renderer, m: Message)
    ensures Protected(b, m) <==> m.role == "system" || StandsIn(m.content, b.marker)
  {
    ContainsMeans(m.content, b.marker);
  }

  ghost predicate StandsIn(text: string, part: string) {
    exists i: nat :: PartAt(text, part, i)
  }

  predicate PartAt(text: string, part: string, i: nat) {
    i + |part| <= |text| && text[i..i + |part|] == part
  }

  lemma {:induction false} ContainsMeans(text: string, part: string)
    ensures Contains(text, part) <==> StandsIn(text, part)
  {
    assert part <= text <==> PartAt(text, part, 0);
    if text != "" {
      ContainsMeans(text[1..], part);
      forall i: nat
        ensures PartAt(text[1..], part, i) <==> PartAt(text, part, i + 1)
      {
        PartLater(text, part, i);
      }
      if i: nat :| PartAt(text, part, i) && i > 0 {
        assert PartAt(text[1..], part, i - 1);
      }
      if i: nat :| PartAt(text[1..], part, i) {
        assert PartAt(text, part, i + 1);
      }
    }
  }

  lemma PartLater(text: string, part: string, i: nat)
    requires text != ""
    ensures PartAt(text[1..], part, i) <==> PartAt(text, part, i + 1)
  {
    if i + 1 + |part| <= |text| {
      assert text[1..][i..i + |part|] == text[i + 1..i + 1 + |part|];
    }
  }

  /** A turn starts at i. */
  predicate StartsTurn(h: seq<Message>, i: nat) {
    i < |h| && IsUser(h[i])
  }

  /** No turn starts in h[from..to). */
  ghost predicate NoStart(h: seq<Message>, from: nat, to: nat) {
    forall i :: from <= i < to ==> !StartsTurn(h, i)
  }

  /** h[first..end) is the oldest turn, and another one follows it. */
  ghost predicate OldestTurn(h: seq<Message>, first: nat, end: nat) {
    && first < end < |h| && StartsTurn(h, first) && StartsTurn(h, end)
    && NoStart(h, 0, first) && NoStart(h, first + 1, end)
  }

  ghost predicate AnyProtected(b: Renderer, h: seq<Message>, first: nat, end: nat) {
    exists i :: first <= i < end && i < |h| && Protected(b, h[i])
  }

  /** The oldest turn that another turn follows, and whether it holds anything protected. */
  method OldestCompleteTurn(b: Renderer, h: seq<Message>) returns (found: bool, first: nat, end: nat, protected: bool)
    ensures found ==> OldestTurn(h, first, end) && (protected <==> AnyProtected(b, h, first, end))
    ensures !found ==> forall i, j :: 0 <= i < j ==> !(StartsTurn(h, i) && StartsTurn(h, j))
  {
    first, end, protected := |h|, |h|, false;
    var i := 0;
    while i < |h|
      invariant i <= |h| && end == |h|
      invariant first == |h| ==> NoStart(h, 0, i)
      invariant first < |h| ==> first < i && StartsTurn(h, first) && NoStart(h, 0, first) && NoStart(h, first + 1, i)
      invariant first <= |h|
    {
      if IsUser(h[i]) {
        if first == |h| {
          first := i;
        } else {
          end := i;
          break;
        }
      }
      i := i + 1;
    }
    if end == |h| { return false, first, end, false; }
    i := first;
    while i < end
      invariant first <= i <= end
      invariant protected <==> AnyProtected(b, h, first, i)
    {
      protected := protected || Protected(b, h[i]);
      i := i + 1;
    }
    found := true;
  }

  /** The contents of the messages, one after the other. */
  function Text(h: seq<Message>): string {
    if h == [] then "" else Text(h[..|h| - 1]) + h[|h| - 1].content
  }

  /** That is what joining texts gives, wherever a conversation is cut. */
  lemma {:induction false} TextJoins(g: seq<Message>, h: seq<Message>)
    ensures Text(g + h) == Text(g) + Text(h)
  {
    if h == [] {
      assert g + h == g;
    } else {
      var n, gh := |h| - 1, g + h;
      TextJoins(g, h[..n]);
      assert gh[..|gh| - 1] == g + h[..n] && gh[|gh| - 1] == h[n];
      assert Text(g) + (Text(h[..n]) + h[n].content) == Text(g) + Text(h[..n]) + h[n].content;
    }
  }

  lemma TextOfOne(m: Message)
    ensures Text([m]) == m.content
  {
    assert Text([m][..0]) == "";
  }

  /** What compaction left of `was`: everything before its first turn, at most one note, and everything
      from the start of the turn at `kept` on. */
  datatype Cut = Cut(first: nat, kept: nat, note: seq<Message>)

  function Left(was: seq<Message>, c: Cut): seq<Message>
    requires c.first <= c.kept <= |was|
  {
    was[..c.first] + c.note + was[c.kept..]
  }

  /** A note stands for the one turn that ended where the kept part starts, in fewer tokens. */
  ghost predicate NoteReplaces(b: Renderer, was: seq<Message>, c: Cut, p: nat, summary: string) {
    && c.first <= p < c.kept <= |was| && StartsTurn(was, p) && NoStart(was, p + 1, c.kept)
    && c.note == [Message("user", NOTE + summary)]
    && Tokens(b, summary) + 16 < Tokens(b, Text(was[p..c.kept]))
  }

  ghost predicate NoteOk(b: Renderer, was: seq<Message>, c: Cut) {
    c.note == [] || exists p: nat, summary: string :: NoteReplaces(b, was, c, p, summary)
  }

  /** Dropping everything from the first turn to the one at `start` would not have made enough room. */
  ghost predicate TooLong(b: Renderer, was: seq<Message>, first: nat, start: nat, reserve: nat, n: nat)
    requires first <= start <= |was|
  {
    Need(b, was[..first] + was[start..], reserve) > n
  }

  /** A legal compaction: what goes is whole, unprotected, older turns, and none of them could have
      stayed in a context of n positions. */
  ghost predicate LegalCut(b: Renderer, was: seq<Message>, c: Cut, reserve: nat, n: nat) {
    && c.first <= c.kept < |was| && StartsTurn(was, c.first) && NoStart(was, 0, c.first)
    && StartsTurn(was, c.kept)
    && (c.first < c.kept ==> !AnyProtected(b, was, c.first, c.kept))
    && NoteOk(b, was, c)
    && (c.note != [] ==> c.first < c.kept)
    && forall start :: c.first <= start < c.kept && StartsTurn(was, start) ==>
         TooLong(b, was, c.first, start, reserve, n)
  }

  /** What the policy must not remove: everything from the last user message on, and any message that is the
      system's or holds a medium. */
  ghost predicate KeepsTheNewest(was: seq<Message>, now: seq<Message>) {
    forall newest :: 0 <= newest < |was| && was[newest].role == "user"
                     && (forall i :: newest < i < |was| ==> was[i].role != "user") ==>
      |was| - newest <= |now| && now[|now| - (|was| - newest)..] == was[newest..]
  }

  ghost predicate KeepsProtected(b: Renderer, was: seq<Message>, now: seq<Message>) {
    forall i :: 0 <= i < |was| && (was[i].role == "system" || StandsIn(was[i].content, b.marker)) ==> was[i] in now
  }

  /** What the policy may leave: what stood in front of the first user message, perhaps a summary in a user message
      that says so, and the end of the conversation. */
  ghost predicate IsShortened(was: seq<Message>, now: seq<Message>) {
    exists head: nat, tail: nat, note: seq<Message> :: IsJoined(was, now, head, tail, note)
  }

  ghost predicate IsJoined(was: seq<Message>, now: seq<Message>, head: nat, tail: nat, note: seq<Message>) {
    && head <= tail <= |was| && |now| == head + |note| + (|was| - tail)
    && now[..head] == was[..head] && now[head..head + |note|] == note && now[head + |note|..] == was[tail..]
    && (forall i :: 0 <= i < head ==> was[i].role != "user")
    && (note == [] || (|note| == 1 && note[0].role == "user" && NOTE <= note[0].content))
  }

  class Chat {
    const b: Renderer
    const policy: Policy
    var history: seq<Message>
    var nCtx: nat
    /** The tokens in the target's cache. */
    var kv: seq<int>
    /** Resizes that were refused, summaries that were asked for, and the last of them. */
    ghost var refusals: nat
    ghost var summaries: nat
    ghost var lastSummary: (bool, string)

    constructor (b: Renderer, policy: Policy, nCtx: nat)
      ensures this.b == b && this.policy == policy && this.nCtx == nCtx && history == [] && kv == []
    {
      this.b, this.policy, this.nCtx, history, kv := b, policy, nCtx, [], [];
      refusals, summaries, lastSummary := 0, 0, (false, "");
    }

    function GrownContextSize(need: nat): (size: nat)
      reads this`nCtx
      ensures size <= policy.maxCtx
      ensures nCtx < need && nCtx < policy.maxCtx ==> nCtx < size
      ensures need <= policy.maxCtx ==> need <= size
      ensures policy.maxCtx <= need ==> size == policy.maxCtx
      ensures size == policy.maxCtx || 2 * nCtx <= size
      ensures size in {need, 2 * nCtx, policy.maxCtx}
    {
      var wanted := if need >= 2 * nCtx then need else 2 * nCtx;
      if wanted <= policy.maxCtx then wanted else policy.maxCtx
    }

    /** Replace the context by one of `size` positions, which drops the cache; any of the allocations
        may be refused, and then nothing changes. */
    method ResizeContext(size: nat) returns (ok: bool)
      modifies this`nCtx, this`kv, this`refusals
      ensures ok ==> nCtx == size && kv == [] && refusals == old(refusals)
      ensures !ok ==> nCtx == old(nCtx) && kv == old(kv) && refusals == old(refusals) + 1
    {
      if * {
        refusals := refusals + 1;
        return false;
      }
      nCtx, kv := size, [];
      ok := true;
    }

    /** Grow towards the need, if the policy and the maximum allow it. */
    method GrowOnce(need: nat) returns (grew: bool)
      requires nCtx < need
      modifies this`nCtx, this`kv, this`refusals
      ensures grew ==> policy.grow != Off && old(nCtx) < nCtx <= policy.maxCtx && kv == [] && refusals == old(refusals)
      ensures grew ==> nCtx == policy.maxCtx || (need <= nCtx && 2 * old(nCtx) <= nCtx)
      ensures !grew ==> nCtx == old(nCtx) && kv == old(kv)
      ensures !grew ==>
                refusals == old(refusals) + if policy.grow != Off && nCtx < policy.maxCtx then 1 else 0
    {
      if policy.grow == Off || policy.maxCtx <= nCtx { return false; }
      var next := GrownContextSize(need);
      grew := ResizeContext(next);
    }

    /** Text some model wrote about history[first..end), if it managed to. */
    method Summarize(first: nat, end: nat) returns (ok: bool, summary: string)
      modifies this`summaries, this`lastSummary
      ensures summaries == old(summaries) + 1 && lastSummary == (ok, summary)
    {
      ok, summary := *, *;
      summaries, lastSummary := summaries + 1, (ok, summary);
    }

    /** Nothing can be taken out: the oldest turn is the newest one, or protected, or may not be dropped
        and a summary of it is not allowed or was already tried. */
    ghost predicate Stuck(tried: bool)
      reads this`history
    {
      || (policy.trim == Off && (policy.summarize == Off || tried))
      || (forall i, j :: 0 <= i < j ==> !(StartsTurn(history, i) && StartsTurn(history, j)))
      || (exists first: nat, end: nat :: OldestTurn(history, first, end) && AnyProtected(b, history, first, end))
    }

    /** Grow, summarize or trim until the conversation fits or nothing more can be done. */
    method MakeContextRoom(reserve: nat) returns (changed: bool, ghost c: Cut)
      modifies this
      ensures !changed ==> history == old(history) && nCtx == old(nCtx) && kv == old(kv)
      ensures changed ==> nCtx > old(nCtx) || (LegalCut(b, old(history), c, reserve, old(nCtx)) && c.first < c.kept)
      ensures history != old(history) ==>
                LegalCut(b, old(history), c, reserve, old(nCtx)) && history == Left(old(history), c)
      // unless a resize was refused, what was dropped would not have fitted the context that is there now
      ensures history != old(history) && refusals == old(refusals) ==> LegalCut(b, old(history), c, reserve, nCtx)
      ensures KeepsTheNewest(old(history), history) && KeepsProtected(b, old(history), history)
      ensures IsShortened(old(history), history)
      ensures b.tokens(b.render(history)) + reserve <= nCtx || Stuck(summaries > old(summaries))
      ensures old(b.tokens(b.render(history)) + reserve <= nCtx) ==> !changed
      ensures policy == Policy(Off, Off, Off, policy.maxCtx) ==> !changed
      ensures nCtx == old(nCtx) || (policy.grow != Off && old(nCtx) < nCtx <= policy.maxCtx && kv == [])
      ensures nCtx == old(nCtx) || nCtx == policy.maxCtx || 2 * old(nCtx) <= nCtx
      ensures nCtx == old(nCtx) ==> kv == old(kv)
      ensures policy.summarize == Off && policy.trim == Off ==> history == old(history)
      // growing comes first: nothing is dropped, and nothing is given up, while a resize might help
      ensures history != old(history) || Need(b, history, reserve) > nCtx ==>
                policy.grow == Off || policy.maxCtx <= nCtx || refusals > old(refusals)
      // summarizing comes before dropping, and is tried once
      ensures old(summaries) <= summaries <= old(summaries) + 1
      ensures history != old(history) && policy.summarize != Off ==> summaries == old(summaries) + 1
    {
      // what is dropped is measured against the context as it was before a resize was refused
      ghost var was, small, room := history, nCtx, nCtx;
      ghost var cut := false;
      c := Cut(0, 0, []);
      changed := false;
      var tried := false;
      while policy.grow != Off || policy.summarize != Off || policy.trim != Off
        invariant small <= room <= nCtx && (refusals == old(refusals) ==> room == nCtx)
        invariant CutOf(was, history, c, cut, reserve, room)
        invariant cut && c.note != [] ==> tried
        invariant changed <==> cut || nCtx > small
        invariant changed ==> Need(b, was, reserve) > small
        invariant nCtx == small ==> kv == old(kv)
        invariant refusals >= old(refusals) && summaries == old(summaries) + if tried then 1 else 0
        invariant cut ==> policy.grow == Off || policy.maxCtx <= nCtx || refusals > old(refusals)
        invariant cut && policy.summarize != Off ==> tried
        invariant nCtx == small || (policy.grow != Off && small < nCtx <= policy.maxCtx && kv == [])
        invariant nCtx == small || nCtx == policy.maxCtx || 2 * small <= nCtx
        invariant policy.summarize == Off && policy.trim == Off ==> !cut
        decreases if nCtx < policy.maxCtx then policy.maxCtx - nCtx else 0, !tried, |history|
      {
        var need := Need(b, history, reserve);
        if need <= nCtx { break; }
        var grew := GrowOnce(need);
        if grew {
          changed := true;
          if refusals == old(refusals) { room := nCtx; }
          continue;
        }
        var shrunk;
        shrunk, tried, c := ShrinkCut(tried, was, c, cut, reserve, room);
        if !shrunk { break; }
        cut, changed := true, true;
      }
      CutIsDone(was, c, cut, reserve, room, small);
    }

    lemma CutIsDone(was: seq<Message>, c: Cut, cut: bool, reserve: nat, room: nat, small: nat)
      requires CutOf(was, history, c, cut, reserve, room) && small <= room
      ensures cut ==> LegalCut(b, was, c, reserve, small)
      ensures KeepsTheNewest(was, history) && KeepsProtected(b, was, history) && IsShortened(was, history)
    {
      if cut {
        LegalInLess(b, was, c, reserve, room, small);
        CutKeeps(b, was, c, reserve, room);
        CutShortens(b, was, c, reserve, room);
      } else {
        assert IsJoined(was, history, 0, 0, []);
      }
    }

    /** A conversation is the original, or a legal cut of it. */
    ghost predicate CutOf(was: seq<Message>, now: seq<Message>, c: Cut, cut: bool, reserve: nat, small: nat) {
      if cut then LegalCut(b, was, c, reserve, small) && c.first < c.kept && now == Left(was, c) else now == was
    }

    /** What is left of a conversation whose turn history[first..end) was summarized or dropped. */
    ghost predicate Shrunk(was: seq<Message>, first: nat, end: nat, noted: bool, summary: string)
      reads this`history
    {
      && OldestTurn(was, first, end) && !AnyProtected(b, was, first, end)
      && history == was[..first] + (if noted then [Message("user", NOTE + summary)] else []) + was[end..]
    }

    /** A summary is used if there is one and it saves more than 16 tokens. */
    ghost predicate Usable(summary: (bool, string), turn: seq<Message>) {
      summary.0 && Tokens(b, summary.1) + 16 < Tokens(b, Text(turn))
    }

    /** Summarize or drop the oldest turn. */
    method ShrinkOnce(tried: bool)
      returns (shrunk: bool, tried': bool, ghost noted: bool, ghost first: nat, ghost end: nat)
      modifies this`history, this`summaries, this`lastSummary
      // the turn that goes, and whether a summary takes its place
      ensures shrunk ==>
                first < end <= |old(history)|
                && Shrunk(old(history), first, end, noted, lastSummary.1)
                && noted == (!tried && policy.summarize != Off && Usable(lastSummary, old(history)[first..end]))
                && (!noted ==> policy.trim != Off)
      ensures !shrunk ==> history == old(history) && Stuck(tried')
      ensures tried' == tried || (policy.summarize != Off && summaries == old(summaries) + 1)
      ensures tried' == tried ==> summaries == old(summaries)
      ensures tried ==> tried'
      ensures shrunk && policy.summarize != Off ==> tried'
    {
      shrunk, tried', noted := false, tried, false;
      var found, from, upto, protected := OldestCompleteTurn(b, history);
      first, end := from, upto;
      if !found || protected { return; }
      if !tried && policy.summarize != Off {
        tried' := true;
        var ok, summary := Summarize(from, upto);
        if ok && Tokens(b, summary) + 16 < Tokens(b, Text(history[from..upto])) {
          history := history[..from] + [Message("user", NOTE + summary)] + history[upto..];
          shrunk, noted := true, true;
          return;
        }
      }
      if policy.trim != Off {
        history := history[..from] + [] + history[upto..];
        shrunk := true;
      }
    }

    /** The same, on what the conversation is of the original. */
    method ShrinkCut(tried: bool, ghost was: seq<Message>, ghost c: Cut, ghost cut: bool, ghost reserve: nat,
                     ghost room: nat)
      returns (shrunk: bool, tried': bool, ghost c': Cut)
      requires CutOf(was, history, c, cut, reserve, room) && Need(b, history, reserve) > room
      requires cut && c.note != [] ==> tried
      modifies this`history, this`summaries, this`lastSummary
      ensures shrunk ==> CutOf(was, history, c', true, reserve, room) && (c'.note != [] ==> tried')
      ensures shrunk ==> tried' == tried ==> |history| < |old(history)|
      ensures !shrunk ==> history == old(history) && Stuck(tried') && c' == c
      ensures tried ==> tried'
      ensures summaries == old(summaries) + if tried' == tried then 0 else 1
      ensures tried' == tried || policy.summarize != Off
      ensures shrunk && policy.summarize != Off ==> tried'
      ensures shrunk ==> policy.summarize != Off || policy.trim != Off
    {
      c' := c;
      ghost var noted, first, end;
      shrunk, tried', noted, first, end := ShrinkOnce(tried);
      if shrunk {
        c' := ShrunkIsCut(was, old(history), c, cut, reserve, room, first, end, noted, lastSummary.1);
      }
    }

    /** A shrunk cut of the original is a legal cut of it. */
    lemma ShrunkIsCut(was: seq<Message>, before: seq<Message>, c: Cut, cut: bool, reserve: nat, small: nat,
                      first: nat, end: nat, noted: bool, summary: string) returns (c': Cut)
      requires CutOf(was, before, c, cut, reserve, small) && Need(b, before, reserve) > small
      requires Shrunk(before, first, end, noted, summary)
      requires noted ==> (cut ==> c.note == []) && end <= |before|
      requires noted ==> Tokens(b, summary) + 16 < Tokens(b, Text(before[first..end]))
      ensures CutOf(was, history, c', true, reserve, small) && (c'.note != [] <==> noted)
    {
      var whole := if cut then c else Cut(first, first, []);
      if !cut { NoCutIsLegal(b, was, first, end, reserve, small); }
      if noted {
        c' := SummarizeOldest(b, was, whole, reserve, small, first, end, summary);
      } else {
        c' := DropOldest(b, was, whole, reserve, small, first, end);
        assert before[..first] + [] + before[end..] == before[..first] + before[end..];
      }
    }
  }

  /** Nothing dropped is a legal cut of a conversation with two turns. */
  lemma NoCutIsLegal(b: Renderer, was: seq<Message>, first: nat, end: nat, reserve: nat, n: nat)
    requires OldestTurn(was, first, end)
    ensures LegalCut(b, was, Cut(first, first, []), reserve, n) && Left(was, Cut(first, first, [])) == was
  {
  }

  /** What would not fit a large context would not fit a smaller one. */
  lemma LegalInLess(b: Renderer, was: seq<Message>, c: Cut, reserve: nat, n: nat, less: nat)
    requires LegalCut(b, was, c, reserve, n) && less <= n
    ensures LegalCut(b, was, c, reserve, less)
  {
    forall start | c.first <= start < c.kept && StartsTurn(was, start)
      ensures TooLong(b, was, c.first, start, reserve, less)
    {
      assert TooLong(b, was, c.first, start, reserve, n);
    }
  }

  /** Where the oldest turn of a cut conversation lies: it is the note, or it is a turn of the original. */
  lemma OldestOfCut(was: seq<Message>, c: Cut, first: nat, end: nat) returns (next: nat)
    requires c.first <= c.kept < |was| && StartsTurn(was, c.first) && NoStart(was, 0, c.first)
    requires StartsTurn(was, c.kept)
    requires |c.note| <= 1 && forall m :: m in c.note ==> IsUser(m)
    requires OldestTurn(Left(was, c), first, end)
    ensures first == c.first
    ensures c.kept <= next < |was| && StartsTurn(was, next) && NoStart(was, c.kept + 1, next)
    ensures Left(was, c)[..first] == was[..c.first] && Left(was, c)[end..] == was[next..]
    ensures if c.note == [] then c.kept < next && Left(was, c)[first..end] == was[c.kept..next] else next == c.kept
  {
    var shift := c.first + |c.note|;
    OldestStarts(was, c, first, end);
    next := end - shift + c.kept;
    NextTurn(was, c, end, next);
  }

  /** The head in front of a cut, and what is kept behind it, are as they were. */
  lemma LeftParts(was: seq<Message>, c: Cut)
    requires c.first <= c.kept < |was|
    ensures var h, shift := Left(was, c), c.first + |c.note|;
            && h[..c.first] == was[..c.first] && h[c.first..shift] == c.note && h[shift..] == was[c.kept..]
            && |h| == shift + |was| - c.kept
  {
  }

  lemma OldestStarts(was: seq<Message>, c: Cut, first: nat, end: nat)
    requires c.first <= c.kept < |was| && StartsTurn(was, c.first) && NoStart(was, 0, c.first)
    requires StartsTurn(was, c.kept)
    requires |c.note| <= 1 && forall m :: m in c.note ==> IsUser(m)
    requires OldestTurn(Left(was, c), first, end)
    ensures first == c.first && c.first + |c.note| <= end
    ensures if c.note == [] then first < end else end == c.first + 1
  {
    var h, shift := Left(was, c), c.first + |c.note|;
    LeftParts(was, c);
    assert h[shift] == was[c.kept] && (c.note != [] ==> h[c.first] == c.note[0]);
    assert StartsTurn(h, c.first) && StartsTurn(h, shift);
    forall i | 0 <= i < c.first
      ensures !StartsTurn(h, i)
    {
      assert h[i] == h[..c.first][i] == was[i] && !StartsTurn(was, i);
    }
  }

  lemma NextTurn(was: seq<Message>, c: Cut, end: nat, next: nat)
    requires c.first <= c.kept < |was| && c.first + |c.note| <= end <= |Left(was, c)|
    requires next == end - (c.first + |c.note|) + c.kept
    requires NoStart(Left(was, c), c.first + 1, end)
    ensures Left(was, c)[end..] == was[next..] && NoStart(was, c.kept + 1, next)
    ensures c.note == [] ==> Left(was, c)[c.first..end] == was[c.kept..next]
  {
    var h, shift := Left(was, c), c.first + |c.note|;
    LeftParts(was, c);
    SameTail(h, shift, was, c.kept, end - shift);
    forall i | c.kept < i < next
      ensures !StartsTurn(was, i)
    {
      var k := i - c.kept;
      assert h[shift..][k] == was[c.kept..][k];
      assert !StartsTurn(h, shift + k);
    }
  }

  lemma SameTail<T>(a: seq<T>, i: nat, b: seq<T>, j: nat, n: nat)
    requires i + n <= |a| && j <= |b| && a[i..] == b[j..]
    ensures j + n <= |b| && a[i + n..] == b[j + n..] && a[i..i + n] == b[j..j + n]
  {
    assert |a| - i == |b| - j;
    assert a[i + n..] == a[i..][n..] == b[j..][n..];
    assert a[i..i + n] == a[i..][..n] == b[j..][..n];
  }

  /** Dropping the oldest turn keeps the cut legal. */
  lemma DropOldest(b: Renderer, was: seq<Message>, c: Cut, reserve: nat, n: nat, first: nat, end: nat) returns (c': Cut)
    requires LegalCut(b, was, c, reserve, n) && Need(b, Left(was, c), reserve) > n
    requires OldestTurn(Left(was, c), first, end) && !AnyProtected(b, Left(was, c), first, end)
    ensures LegalCut(b, was, c', reserve, n) && c'.first < c'.kept && c'.note == []
    ensures Left(was, c') == Left(was, c)[..first] + Left(was, c)[end..]
  {
    var next := OldestOfCut(was, c, first, end);
    c' := Cut(c.first, next, []);
    DroppedIsFree(b, was, c, first, end, next);
    DroppedIsTooLong(b, was, c, reserve, n, next);
  }

  lemma DroppedIsFree(b: Renderer, was: seq<Message>, c: Cut, first: nat, end: nat, next: nat)
    requires c.first <= c.kept <= next <= |was| && first <= end <= |Left(was, c)|
    requires c.first < c.kept ==> !AnyProtected(b, was, c.first, c.kept)
    requires !AnyProtected(b, Left(was, c), first, end)
    requires if c.note == [] then Left(was, c)[first..end] == was[c.kept..next] else next == c.kept
    ensures !AnyProtected(b, was, c.first, next)
  {
    forall i | c.first <= i < next
      ensures !Protected(b, was[i])
    {
      if i < c.kept {
        assert !AnyProtected(b, was, c.first, c.kept);
      } else {
        var j := i - c.kept;
        assert |was[c.kept..next]| == next - c.kept;
        assert was[i] == was[c.kept..next][j] == Left(was, c)[first..end][j] == Left(was, c)[first + j];
      }
    }
  }

  lemma DroppedIsTooLong(b: Renderer, was: seq<Message>, c: Cut, reserve: nat, n: nat, next: nat)
    requires LegalCut(b, was, c, reserve, n) && Need(b, Left(was, c), reserve) > n
    requires c.kept <= next < |was| && NoStart(was, c.kept + 1, next) && (c.note != [] ==> next == c.kept)
    ensures forall start :: c.first <= start < next && StartsTurn(was, start) ==>
              TooLong(b, was, c.first, start, reserve, n)
  {
    assert c.note == [] ==> Left(was, c) == was[..c.first] + was[c.kept..];
  }

  /** So does putting a summary in its place. */
  lemma SummarizeOldest(b: Renderer, was: seq<Message>, c: Cut, reserve: nat, n: nat, first: nat, end: nat,
                        summary: string) returns (c': Cut)
    requires LegalCut(b, was, c, reserve, n) && c.note == [] && Need(b, Left(was, c), reserve) > n
    requires OldestTurn(Left(was, c), first, end) && !AnyProtected(b, Left(was, c), first, end)
    requires Tokens(b, summary) + 16 < Tokens(b, Text(Left(was, c)[first..end]))
    ensures LegalCut(b, was, c', reserve, n) && c'.first < c'.kept && c'.note == [Message("user", NOTE + summary)]
    ensures Left(was, c') == Left(was, c)[..first] + [Message("user", NOTE + summary)] + Left(was, c)[end..]
  {
    var next := OldestOfCut(was, c, first, end);
    var d := DropOldest(b, was, c, reserve, n, first, end);
    assert d == Cut(c.first, next, []);
    c' := d.(note := [Message("user", NOTE + summary)]);
    assert NoteReplaces(b, was, c', c.kept, summary);
  }

  /** A legal cut keeps them. */
  lemma CutKeeps(b: Renderer, was: seq<Message>, c: Cut, reserve: nat, n: nat)
    requires LegalCut(b, was, c, reserve, n)
    ensures KeepsTheNewest(was, Left(was, c)) && KeepsProtected(b, was, Left(was, c))
  {
    CutKeepsTheNewest(b, was, c, reserve, n);
    forall i | 0 <= i < |was| && (was[i].role == "system" || StandsIn(was[i].content, b.marker))
      ensures was[i] in Left(was, c)
    {
      ProtectedMeans(b, was[i]);
      ProtectedStays(b, was, c, i);
    }
  }

  lemma CutShortens(b: Renderer, was: seq<Message>, c: Cut, reserve: nat, n: nat)
    requires LegalCut(b, was, c, reserve, n)
    ensures IsShortened(was, Left(was, c))
  {
    LeftParts(was, c);
    forall i | 0 <= i < c.first
      ensures was[i].role != "user"
    {
      assert !StartsTurn(was, i);
    }
    if c.note != [] {
      var p: nat, summary: string :| NoteReplaces(b, was, c, p, summary);
      assert NOTE <= NOTE + summary;
    }
    assert IsJoined(was, Left(was, c), c.first, c.kept, c.note);
  }

  lemma CutKeepsTheNewest(b: Renderer, was: seq<Message>, c: Cut, reserve: nat, n: nat)
    requires LegalCut(b, was, c, reserve, n)
    ensures KeepsTheNewest(was, Left(was, c))
  {
    forall newest | 0 <= newest < |was| && was[newest].role == "user"
                    && forall i :: newest < i < |was| ==> was[i].role != "user"
      ensures |was| - newest <= |Left(was, c)|
      ensures Left(was, c)[|Left(was, c)| - (|was| - newest)..] == was[newest..]
    {
      assert StartsTurn(was, c.kept);
      TailStays(was, c, newest);
    }
  }

  lemma TailStays(was: seq<Message>, c: Cut, newest: nat)
    requires c.first <= c.kept <= newest < |was|
    ensures var now := Left(was, c); |was| - newest <= |now| && now[|now| - (|was| - newest)..] == was[newest..]
  {
    LeftParts(was, c);
    SameTail(Left(was, c), c.first + |c.note|, was, c.kept, newest - c.kept);
  }

  lemma ProtectedStays(b: Renderer, was: seq<Message>, c: Cut, i: nat)
    requires c.first <= c.kept < |was| && (c.first < c.kept ==> !AnyProtected(b, was, c.first, c.kept))
    requires i < |was| && Protected(b, was[i])
    ensures was[i] in Left(was, c)
  {
    assert c.first <= i < c.kept ==> AnyProtected(b, was, c.first, c.kept);
    if i < c.first {
      assert was[i] == was[..c.first][i];
    } else if i >= c.kept {
      assert was[i] == was[c.kept..][i - c.kept];
    }
  }

  /** Among all ways to drop whole oldest turns until the conversation fits, a cut without a note that
      fits drops least. */
  lemma TrimDropsLeast(b: Renderer, was: seq<Message>, c: Cut, d: Cut, reserve: nat, n: nat)
    requires LegalCut(b, was, c, reserve, n) && c.note == [] && Need(b, Left(was, c), reserve) <= n
    requires c.first == d.first <= d.kept < |was| && StartsTurn(was, d.kept) && d.note == []
    requires Need(b, Left(was, d), reserve) <= n
    ensures c.kept <= d.kept && |Left(was, d)| <= |Left(was, c)|
  {
    assert Left(was, d) == was[..c.first] + was[d.kept..];
    assert !TooLong(b, was, c.first, d.kept, reserve, n);
  }
}
