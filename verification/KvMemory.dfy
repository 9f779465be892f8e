/** The physical memory of one llama context, as the session relies on it: an append-only sequence of
    decoded positions, and a removal of the tail that the memory may refuse or, for recurrent state
    with snapshots, may carry out on the wrong state. */
module KvMemory {
  import opened Basics

  datatype MemoryKind =
    | Attention                  // removes any tail exactly, or refuses
    | Recurrent                  // refuses every removal
    | Snapshots(depth: nat)      // accepts up to `depth` positions and restores a snapshot

  class Memory {
    const kind: MemoryKind
    const nCtx: nat
    const nBatch: nat
    const nUbatch: nat

    /** The token sequence whose state the memory holds, position by position. */
    var cells: seq<Token>
    /** The last decoded ubatch occupied [lastStart, lastEnd). */
    var lastStart: nat
    var lastEnd: nat
    /** The logits of the last decode: row i is conditioned on rowBase and the batch up to i. */
    var rowStart: nat
    var rows: seq<Token>
    /** Decodes that failed and removals that were refused. */
    ghost var faults: nat

    constructor (kind: MemoryKind, nCtx: nat, nBatch: nat, nUbatch: nat)
      requires 1 <= nUbatch <= nBatch
      ensures this.kind == kind && this.nCtx == nCtx && this.nBatch == nBatch && this.nUbatch == nUbatch
      ensures cells == [] && Shape()
    {
      this.kind, this.nCtx, this.nBatch, this.nUbatch := kind, nCtx, nBatch, nUbatch;
      cells, lastStart, lastEnd, rowStart, rows, faults := [], 0, 0, 0, [], 0;
    }

    ghost predicate Shape() { 1 <= nUbatch <= nBatch }

    /** Whether the state after the first `keep` positions is still stored: the current state, or a
        snapshot taken after one of the last `depth` + 1 tokens of the last decoded ubatch. */
    ghost predicate Holds(keep: nat)
      reads this
    {
      match kind
      case Attention => true
      case Recurrent => false
      case Snapshots(depth) => lastStart < keep <= lastEnd && lastEnd - keep <= depth
    }

    /** The context that the logits in row i of the last decode are conditioned on. */
    function Row(i: nat): seq<Token>
      requires rowStart + i + 1 <= |rows|
      reads this
    {
      rows[..rowStart + i + 1]
    }

    /** One decode. The positions continue from the last stored one; a batch that starts anywhere
        else is refused by the runtime, so continuing is the caller's obligation. A failed decode
        (an abort, an error, or no room left) keeps the ubatches that were already processed. */
    method Decode(pos0: nat, batch: seq<Token>) returns (ok: bool)
      requires Shape()
      requires pos0 == |cells|
      requires 0 < |batch| <= nBatch
      modifies this
      ensures ok ==> cells == old(cells) + batch && |cells| <= nCtx
      ensures ok ==> rowStart == pos0 && rows == cells
      ensures ok ==> lastStart == pos0 + (|batch| - 1) / nUbatch * nUbatch && lastEnd == |cells|
      ensures old(cells) <= cells <= old(cells) + batch
      ensures faults == old(faults) + if ok then 0 else 1
    {
      var failed: bool := *;
      if !failed && |cells| + |batch| <= nCtx {
        cells := cells + batch;
        rowStart, rows := pos0, cells;
        lastStart, lastEnd := pos0 + (|batch| - 1) / nUbatch * nUbatch, |cells|;
        ok := true;
      } else {
        var processed: nat :| processed <= |batch|;
        cells := cells + batch[..processed];
        lastStart, lastEnd := *, *;
        faults := faults + 1;
        ok := false;
      }
    }

    /** The draft head writes its own guesses after the last stored position while it drafts. */
    method ScribbleGuesses(guesses: seq<Token>)
      modifies this`cells, this`lastStart, this`lastEnd, this`rowStart, this`rows
      ensures cells == old(cells) + guesses
    {
      cells := cells + guesses;
      lastStart, lastEnd, rowStart, rows := *, *, *, *;
    }

    /** Remove the positions from `keep` on. With nothing there, nothing can be refused. */
    method RemoveTail(keep: nat) returns (ok: bool)
      modifies this`cells, this`faults
      ensures |old(cells)| <= keep ==> ok && cells == old(cells)
      ensures faults == old(faults) + if ok then 0 else 1
      ensures !ok ==> cells == old(cells)
      ensures ok && |old(cells)| > keep ==> !kind.Recurrent? && |cells| == keep
      ensures ok && |old(cells)| > keep && old(Holds(keep)) ==> cells == old(cells)[..keep]
    {
      if |cells| <= keep { return true; }
      var refused: bool := *;
      if refused || kind.Recurrent? || (kind.Snapshots? && |cells| - keep > kind.depth) {
        faults := faults + 1;
        return false;
      }
      match kind {
        case Attention =>
          cells := cells[..keep];
          return true;
        case Snapshots(depth) =>
          if lastStart < keep <= lastEnd && lastEnd - keep <= depth {
            cells := cells[..keep];
          } else {
            // the state of another position, presented as this one
            var wrong: seq<Token> := *;
            cells := if |wrong| == keep then wrong else cells[..keep];
          }
          return true;
      }
    }

    method Clear()
      modifies this`cells, this`lastStart, this`lastEnd
      ensures cells == []
    {
      cells, lastStart, lastEnd := [], 0, 0;
    }
  }
}
