/** The byte budget two output streams of a command share (src/adapters/command.rs): one buffer, standard
    output first and standard error behind it, where standard output pushes standard error out. */
module OutputBudget {
  import opened Arithmetic

  newtype byte = x: int | 0 <= x < 256

  const OUTPUT_LIMIT: nat := 1024 * 1024

  datatype Stream = Stdout | Stderr

  datatype Chunk = Chunk(stream: Stream, bytes: seq<byte>)

  /** Everything received on one stream. */
  function Received(chunks: seq<Chunk>, stream: Stream): seq<byte> {
    if chunks == [] then []
    else
      var last := |chunks| - 1;
      Received(chunks[..last], stream) + (if chunks[last].stream == stream then chunks[last].bytes else [])
  }

  /** How much of standard output the budget keeps. */
  function StdoutShare(stdout: nat): nat {
    Min(stdout, OUTPUT_LIMIT)
  }

  /** How much of standard error fits beside it. */
  function StderrShare(stdout: nat, stderr: nat): nat {
    Min(stderr, OUTPUT_LIMIT - StdoutShare(stdout))
  }

  lemma Shorter(buffer: seq<byte>, at: nat, s: seq<byte>, n: nat, m: nat)
    requires n <= m <= |s| && at + m <= |buffer| && buffer[at..at + m] == s[..m]
    ensures buffer[at..at + n] == s[..n]
  {
    assert buffer[at..at + n] == buffer[at..at + m][..n];
    assert s[..n] == s[..m][..n];
  }

  /** Keeping `n` of `a` and then `k` of `b` keeps a beginning of `a + b` when nothing of `a` was cut before `b`. */
  lemma Prefixes(a: seq<byte>, b: seq<byte>, n: nat, k: nat)
    requires n <= |a| && k <= |b| && (k == 0 || n == |a|)
    ensures (a + b)[..n + k] == a[..n] + b[..k]
  {
  }

  lemma Abut(s: seq<byte>, i: nat, j: nat, k: nat)
    requires i <= j <= k <= |s|
    ensures s[i..k] == s[i..j] + s[j..k]
  {
  }

  /** `copy_within`: moves a range of the buffer to the right, where it may overlap itself. */
  method CopyWithin(bytes: array<byte>, start: nat, end: nat, shift: nat)
    requires start <= end <= end + shift <= bytes.Length
    modifies bytes
    ensures bytes[..start] == old(bytes[..start])
    ensures bytes[start + shift..end + shift] == old(bytes[start..end])
  {
    forall i | start <= i < end {
      bytes[i + shift] := bytes[i];
    }
    forall k | 0 <= k < end - start
      ensures bytes[start + shift..end + shift][k] == old(bytes[start..end])[k]
    {
      assert bytes[start + k + shift] == old(bytes[start + k]);
    }
  }

  /** `copy_from_slice`: overwrites a range of the buffer and nothing else. */
  method CopyFrom(bytes: array<byte>, start: nat, source: seq<byte>)
    requires start + |source| <= bytes.Length
    modifies bytes
    ensures bytes[..start] == old(bytes[..start])
    ensures bytes[start..start + |source|] == source
    ensures bytes[start + |source|..] == old(bytes[start + |source|..])
  {
    forall i | 0 <= i < |source| {
      bytes[start + i] := source[i];
    }
  }

  class OutputBudget {
    const bytes: array<byte>
    var len: nat
    var stdoutLen: nat
    var stderrLen: nat
    var stdoutDiscarded: nat
    var stderrDiscarded: nat

    ghost predicate Valid()
      reads this
    {
      bytes.Length == OUTPUT_LIMIT && len == stdoutLen + stderrLen <= OUTPUT_LIMIT
    }

    /** The state after `stdout` and `stderr` have been received, in any order: each stream keeps its
        beginning, standard output first. */
    ghost predicate Keeps(stdout: seq<byte>, stderr: seq<byte>)
      reads this, bytes
    {
      && Valid()
      && stdoutLen == StdoutShare(|stdout|)
      && stderrLen == StderrShare(|stdout|, |stderr|)
      && stdoutDiscarded == |stdout| - stdoutLen
      && stderrDiscarded == |stderr| - stderrLen
      && bytes[..stdoutLen] == stdout[..stdoutLen]
      && bytes[stdoutLen..len] == stderr[..stderrLen]
    }

    constructor ()
      ensures Keeps([], []) && fresh(bytes)
    {
      bytes := new byte[OUTPUT_LIMIT];
      len, stdoutLen, stderrLen := 0, 0, 0;
      stdoutDiscarded, stderrDiscarded := 0, 0;
    }

    method Append(stream: Stream, chunk: seq<byte>, ghost stdout: seq<byte>, ghost stderr: seq<byte>)
      requires Keeps(stdout, stderr)
      modifies this, bytes
      ensures Keeps(if stream == Stdout then stdout + chunk else stdout,
                    if stream == Stderr then stderr + chunk else stderr)
    {
      match stream {
        case Stdout => AppendStdout(chunk, stdout, stderr);
        case Stderr => AppendStderr(chunk, stdout, stderr);
      }
    }

    method AppendStdout(chunk: seq<byte>, ghost stdout: seq<byte>, ghost stderr: seq<byte>)
      requires Keeps(stdout, stderr)
      modifies this, bytes
      ensures Keeps(stdout + chunk, stderr)
    {
      var keep := Min(|chunk|, OUTPUT_LIMIT - stdoutLen);
      Evict(keep);
      assert bytes[stdoutLen..len] == stderr[..stderrLen] by {
        Shorter(bytes[..], stdoutLen, stderr, stderrLen, old(stderrLen));
      }
      ghost var n := stdoutLen;
      Prefixes(stdout, chunk, n, keep);
      Insert(chunk[..keep]);
      stdoutDiscarded := stdoutDiscarded + (|chunk| - keep);
    }

    /** Drops the end of standard error where standard output needs the room. */
    method Evict(keep: nat)
      requires Valid() && stdoutLen + keep <= OUTPUT_LIMIT
      modifies this`stderrLen, this`len, this`stderrDiscarded
      ensures Valid() && stderrLen == Min(old(stderrLen), OUTPUT_LIMIT - stdoutLen - keep)
      ensures stderrDiscarded + stderrLen == old(stderrDiscarded + stderrLen)
    {
      if stdoutLen + stderrLen + keep > OUTPUT_LIMIT {
        var discarded := Min(stdoutLen + stderrLen + keep - OUTPUT_LIMIT, stderrLen);
        stderrLen := stderrLen - discarded;
        len := stdoutLen + stderrLen;
        stderrDiscarded := stderrDiscarded + discarded;
      }
    }

    /** Puts bytes between the two streams. */
    method Insert(kept: seq<byte>)
      requires Valid() && len + |kept| <= OUTPUT_LIMIT
      modifies this`stdoutLen, this`len, bytes
      ensures Valid() && stdoutLen == old(stdoutLen) + |kept|
      ensures bytes[..stdoutLen] == old(bytes[..stdoutLen]) + kept
      ensures bytes[stdoutLen..len] == old(bytes[stdoutLen..len])
    {
      var start, oldLen := stdoutLen, len;
      ghost var tail := bytes[start..oldLen];
      len := oldLen + |kept|;
      CopyWithin(bytes, start, oldLen, |kept|);
      CopyFrom(bytes, start, kept);
      stdoutLen := start + |kept|;
      Abut(bytes[..], 0, start, stdoutLen);
      assert bytes[stdoutLen..len] == bytes[stdoutLen..][..len - stdoutLen] == tail;
    }

    method AppendStderr(chunk: seq<byte>, ghost stdout: seq<byte>, ghost stderr: seq<byte>)
      requires Keeps(stdout, stderr)
      modifies this, bytes
      ensures Keeps(stdout, stderr + chunk)
    {
      var keep := Min(|chunk|, OUTPUT_LIMIT - (stdoutLen + stderrLen));
      var oldLen := len;
      ghost var oldErr := stderrLen;
      ghost var head, tail := bytes[..stdoutLen], bytes[stdoutLen..oldLen];
      CopyFrom(bytes, oldLen, chunk[..keep]);
      len := oldLen + keep;
      stderrLen := stderrLen + keep;
      stderrDiscarded := stderrDiscarded + (|chunk| - keep);
      Prefixes(stderr, chunk, oldErr, keep);
      Abut(bytes[..], stdoutLen, oldLen, len);
      assert bytes[..stdoutLen] == bytes[..][..oldLen][..stdoutLen] == head;
      assert bytes[stdoutLen..oldLen] == bytes[..][..oldLen][stdoutLen..] == tail;
    }

    /** The two streams and what was dropped of each. */
    method IntoParts(ghost stdout: seq<byte>, ghost stderr: seq<byte>)
      returns (out: seq<byte>, err: seq<byte>, outDropped: nat, errDropped: nat)
      requires Keeps(stdout, stderr)
      ensures out == stdout[..StdoutShare(|stdout|)] && outDropped == |stdout| - |out|
      ensures err == stderr[..StderrShare(|stdout|, |stderr|)] && errDropped == |stderr| - |err|
    {
      out, err := bytes[..stdoutLen], bytes[stdoutLen..len];
      outDropped, errDropped := stdoutDiscarded, stderrDiscarded;
    }
  }

  /** Collects a command's output. The result depends on what each stream received, and not on how the
      chunks interleave: each stream keeps its beginning, and what is kept and dropped add up. */
  method Collect(chunks: seq<Chunk>) returns (out: seq<byte>, err: seq<byte>, outDropped: nat, errDropped: nat)
    ensures var stdout, stderr := Received(chunks, Stdout), Received(chunks, Stderr);
      && out == stdout[..StdoutShare(|stdout|)] && |out| + outDropped == |stdout|
      && err == stderr[..StderrShare(|stdout|, |stderr|)] && |err| + errDropped == |stderr|
      && |out| + |err| == Min(|stdout| + |stderr|, OUTPUT_LIMIT)
  {
    var budget := new OutputBudget();
    for i := 0 to |chunks|
      invariant fresh(budget) && fresh(budget.bytes)
      invariant budget.Keeps(Received(chunks[..i], Stdout), Received(chunks[..i], Stderr))
    {
      assert chunks[..i + 1][..i] == chunks[..i];
      ghost var stdout, stderr := Received(chunks[..i], Stdout), Received(chunks[..i], Stderr);
      assert stdout + [] == stdout && stderr + [] == stderr;
      budget.Append(chunks[i].stream, chunks[i].bytes, stdout, stderr);
    }
    assert chunks[..|chunks|] == chunks;
    out, err, outDropped, errDropped := budget.IntoParts(Received(chunks, Stdout), Received(chunks, Stderr));
  }

  // ----- interleavings

  /** The ways of merging two lists of chunks, one per stream, keeping each in order. */
  ghost predicate Interleaves(merged: seq<Chunk>, out: seq<seq<byte>>, err: seq<seq<byte>>)
    decreases |merged|
  {
    if merged == [] then out == [] && err == []
    else
      var last := |merged| - 1;
      match merged[last].stream
      case Stdout =>
        out != [] && out[|out| - 1] == merged[last].bytes && Interleaves(merged[..last], out[..|out| - 1], err)
      case Stderr =>
        err != [] && err[|err| - 1] == merged[last].bytes && Interleaves(merged[..last], out, err[..|err| - 1])
  }

  function Joined(chunks: seq<seq<byte>>): seq<byte> {
    if chunks == [] then [] else Joined(chunks[..|chunks| - 1]) + chunks[|chunks| - 1]
  }

  /** Whatever the interleaving, each stream receives its own chunks in order; with `Collect`, the result is
      the same for all of them. */
  lemma {:induction false} InterleavingReceives(merged: seq<Chunk>, out: seq<seq<byte>>, err: seq<seq<byte>>)
    requires Interleaves(merged, out, err)
    ensures Received(merged, Stdout) == Joined(out)
    ensures Received(merged, Stderr) == Joined(err)
    decreases |merged|
  {
    if merged != [] {
      var last := |merged| - 1;
      if merged[last].stream == Stdout {
        InterleavingReceives(merged[..last], out[..|out| - 1], err);
      } else {
        InterleavingReceives(merged[..last], out, err[..|err| - 1]);
      }
    }
  }
}
