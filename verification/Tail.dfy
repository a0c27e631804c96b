/** Following an append-only log file (secwatch/tailer.py), one byte per character. */
module Tail {
  import opened Collections

  /** The inode and offset that `follow` yields and that a flush persists. */
  datatype Mark = Mark(ino: int, off: int)

  datatype File = File(ino: int, text: string)

  /** The end of the line that starts at `pos`, if the line is complete. */
  function LineEnd(text: string, pos: nat): (end: Option<nat>)
    requires pos <= |text|
    ensures end.Some? ==> pos < end.value <= |text| && text[end.value - 1] == '\n'
    ensures end.Some? ==> forall i :: pos <= i < end.value - 1 ==> text[i] != '\n'
    ensures end.None? ==> forall i :: pos <= i < |text| ==> text[i] != '\n'
    decreases |text| - pos
  {
    if pos == |text| then None
    else if text[pos] == '\n' then Some(pos + 1)
    else LineEnd(text, pos + 1)
  }

  /** A position where a line may start. */
  predicate AtLineStart(text: string, pos: int) {
    0 <= pos <= |text| && (pos == 0 || text[pos - 1] == '\n')
  }

  /** The texts of the complete lines of a file between two positions. */
  function Lines(text: string, from: nat, to: nat): seq<string>
    requires from <= to <= |text|
    decreases |text| - from
  {
    var end := LineEnd(text, from);
    if end.Some? && end.value <= to then [text[from..end.value]] + Lines(text, end.value, to) else []
  }

  lemma {:induction false} LineEndGrows(text: string, more: string, pos: nat)
    requires pos <= |text|
    ensures LineEnd(text, pos).Some? ==> LineEnd(text + more, pos) == LineEnd(text, pos)
    ensures LineEnd(text, pos).None? && LineEnd(text + more, pos).Some? ==> LineEnd(text + more, pos).value > |text|
    decreases |text| - pos
  {
    if pos < |text| {
      LineEndGrows(text, more, pos + 1);
    }
  }

  /** Lines that were complete stay what they were when the file grows. */
  lemma {:induction false} LinesGrow(text: string, more: string, from: nat, to: nat)
    requires from <= to <= |text|
    ensures Lines(text + more, from, to) == Lines(text, from, to)
    decreases |text| - from
  {
    LineEndGrows(text, more, from);
    var end := LineEnd(text, from);
    if end.Some? && end.value <= to {
      LinesGrow(text, more, end.value, to);
      assert (text + more)[from..end.value] == text[from..end.value];
    }
  }

  /** Reading one more complete line adds exactly that line. */
  lemma {:induction false} LinesSnoc(text: string, from: nat, pos: nat)
    requires from <= pos <= |text| && AtLineStart(text, pos)
    requires LineEnd(text, pos).Some?
    ensures Lines(text, from, LineEnd(text, pos).value)
         == Lines(text, from, pos) + [text[pos..LineEnd(text, pos).value]]
    decreases |text| - from
  {
    var end := LineEnd(text, pos).value;
    if from < pos {
      var first := LineEnd(text, from);
      assert text[pos - 1] == '\n';
      assert first.Some? && first.value <= pos;
      LinesSnoc(text, first.value, pos);
    } else {
      assert Lines(text, end, end) == [];
    }
  }

  /** What one round of `follow` yields: a line, a heartbeat at the end of the file, or
      nothing while the last line is still being written. */
  datatype Yield = Line(text: string) | Heartbeat | Partial

  function Yielded(text: string, pos: nat): (Yield, nat)
    requires pos <= |text|
  {
    var end := LineEnd(text, pos);
    if end.Some? then (Line(text[pos..end.value]), end.value)
    else if pos == |text| then (Heartbeat, pos)
    else (Partial, pos)
  }

  /** What a round yields: at the end of the file a heartbeat, and the reader stays; before a
      newline the text up to it, and the reader moves past it; otherwise nothing. */
  lemma YieldedIs(text: string, pos: nat, end: nat)
    requires pos <= |text|
    ensures pos == |text| <==> Yielded(text, pos) == (Heartbeat, pos)
    ensures pos <= end < |text| && text[end] == '\n' && (forall i :: pos <= i < end ==> text[i] != '\n') ==>
              Yielded(text, pos) == (Line(text[pos..end + 1]), end + 1)
    ensures pos < |text| && (forall i :: pos <= i < |text| ==> text[i] != '\n') ==> Yielded(text, pos) == (Partial, pos)
  {
  }

  /** The marks that a flush has to write: those that changed since they were written. */
  function Unsaved(tail: map<string, Mark>, flushed: map<string, Mark>): map<string, Mark> {
    map k | k in tail && !(k in flushed && flushed[k] == tail[k]) :: tail[k]
  }

  /** Where `follow` starts in a file it opens. */
  function StartAt(state: Option<Mark>, f: File, toEnd: bool): int {
    if state.Some? && state.value.ino == f.ino && state.value.off <= |f.text| then state.value.off
    else if toEnd then |f.text|
    else 0
  }

  /** An offset is resumed exactly in the file it was taken from, if that is still long enough;
      otherwise reading starts where the caller said. */
  lemma StartAtIs(state: Option<Mark>, f: File, toEnd: bool)
    ensures state.Some? && state.value.ino == f.ino && !(state.value.off > |f.text|) ==>
              StartAt(state, f, toEnd) == state.value.off
    ensures state == None || state.value.ino != f.ino || state.value.off > |f.text| ==>
              StartAt(state, f, toEnd) == (if toEnd then |f.text| else 0)
  {
  }

  /** The file cursor of `follow`. */
  class Follower {
    var ino: int
    var pos: int

    constructor (state: Option<Mark>, f: File, toEnd: bool)
      ensures ino == f.ino && pos == StartAt(state, f, toEnd)
    {
      ino := f.ino;
      if state.Some? && state.value.ino == f.ino && state.value.off <= |f.text| {
        pos := state.value.off;
      } else if toEnd {
        pos := |f.text|;
      } else {
        pos := 0;
      }
    }

    /** `readline`: up to and including the next newline, or whatever there is. */
    method ReadLine(text: string) returns (line: string)
      requires 0 <= pos <= |text|
      modifies `pos
      ensures var end := LineEnd(text, old(pos));
              pos == (if end.Some? then end.value else |text|) && line == text[old(pos)..pos]
    {
      var start := pos;
      while pos < |text| && text[pos] != '\n'
        invariant start <= pos <= |text|
        invariant LineEnd(text, pos) == LineEnd(text, start)
        decreases |text| - pos
      {
        pos := pos + 1;
      }
      if pos < |text| {
        pos := pos + 1;
      }
      line := text[start..pos];
    }

    /** One round of the inner loop; a partial line is given back by seeking. */
    method Next(text: string) returns (y: Yield)
      requires 0 <= pos <= |text|
      modifies `pos
      ensures (y, pos) == Yielded(text, old(pos))
    {
      var line := ReadLine(text);
      if line != "" {
        if line[|line| - 1] == '\n' {
          y := Line(line);
        } else {
          pos := pos - |line|;
          y := Partial;
        }
      } else {
        y := Heartbeat;
      }
    }
  }
}
