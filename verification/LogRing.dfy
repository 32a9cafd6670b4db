/** The core log buffer of core/backend_daemon_darwin.go: appended to and shifted in place, it holds the
    last daemonLogMaxLines messages since the last reset. */
module LogRing {

  const MAX_LINES: nat := 3000

  /** The last n elements, or all of them. */
  function Last<T>(n: nat, s: seq<T>): (r: seq<T>)
    ensures |r| == if |s| <= n then |s| else n
  {
    if |s| <= n then s else s[|s| - n..]
  }

  datatype Batch = Batch(reset: bool, messages: seq<string>)

  /** Every message since the last reset, over all streams. */
  function History(batches: seq<Batch>): seq<string> {
    if batches == [] then []
    else
      var last := batches[|batches| - 1];
      (if last.reset then [] else History(batches[..|batches| - 1])) + last.messages
  }

  /** The end of s, in its order. */
  lemma LastIsTail<T>(n: nat, s: seq<T>)
    ensures s == s[..|s| - |Last(n, s)|] + Last(n, s)
  {}

  function Messages(batches: seq<Batch>): seq<string> {
    if batches == [] then [] else Messages(batches[..|batches| - 1]) + batches[|batches| - 1].messages
  }

  /** The history is the messages of all batches from the last reset on, or of all. */
  lemma {:induction false} HistoryIs(batches: seq<Batch>, k: nat)
    requires k <= |batches| && (k > 0 ==> k < |batches| && batches[k].reset)
    requires forall i | k < i < |batches| :: !batches[i].reset
    ensures History(batches) == Messages(batches[k..])
    decreases |batches|
  {
    if k < |batches| {
      var front, n := batches[..|batches| - 1], |batches| - 1;
      assert batches[k..][..|batches[k..]| - 1] == front[k..];
      if k < n {
        HistoryIs(front, k);
      } else if n > 0 || batches[n].reset {
        assert front[k..] == [];
      }
    }
  }

  lemma LastOfLast<T>(n: nat, s: seq<T>, more: seq<T>)
    ensures Last(n, Last(n, s) + more) == Last(n, s + more)
  {
    if |s| > n {
      assert s + more == s[..|s| - n] + (Last(n, s) + more);
    }
  }

  /** One batch on top of the last lines of a history. */
  lemma ReceiveIs(lines: seq<string>, batches: seq<Batch>, b: Batch)
    requires lines == Last(MAX_LINES, History(batches))
    ensures Last(MAX_LINES, (if b.reset then [] else lines) + b.messages)
            == Last(MAX_LINES, History(batches + [b]))
  {
    assert (batches + [b])[..|batches + [b]| - 1] == batches;
    var before := if b.reset then [] else History(batches);
    assert History(batches + [b]) == before + b.messages;
    LastOfLast(MAX_LINES, before, b.messages);
  }

  class LogBuffer {
    var data: array<string>
    var len: nat
    ghost var received: seq<Batch>

    ghost predicate Bounded()
      reads this
    {
      len <= data.Length
    }

    ghost function Lines(): seq<string>
      requires Bounded()
      reads this, data
    {
      data[..len]
    }

    /** The refinement. */
    ghost predicate Valid()
      reads this, data
    {
      Bounded() && Lines() == Last(MAX_LINES, History(received))
    }

    constructor ()
      ensures Valid() && fresh(data) && received == []
    {
      data := new string[16](_ => "");
      len, received := 0, [];
    }

    /** Go's append of one element: in place while the capacity lasts. */
    method Append(line: string)
      requires Bounded()
      modifies this`data, this`len, data
      ensures Bounded() && (data == old(data) || fresh(data))
      ensures Lines() == old(Lines()) + [line]
    {
      if len == data.Length {
        var bigger := new string[2 * len + 1](_ => "");
        for i := 0 to len
          invariant data == old(data) && len == old(len) && unchanged(data)
          invariant bigger[..i] == data[..i]
        {
          bigger[i] := data[i];
        }
        data := bigger;
      }
      data[len] := line;
      len := len + 1;
    }

    method AppendAll(messages: seq<string>)
      requires Bounded()
      modifies this`data, this`len, data
      ensures Bounded() && (data == old(data) || fresh(data))
      ensures Lines() == old(Lines()) + messages
    {
      for i := 0 to |messages|
        invariant Bounded() && (data == old(data) || fresh(data))
        invariant Lines() == old(Lines()) + messages[..i]
      {
        Append(messages[i]);
      }
      assert messages[..|messages|] == messages;
    }

    /** append(lines[:0], lines[overflow:]...): shift the tail to the front. */
    method Shift(overflow: nat)
      requires Bounded() && overflow <= len
      modifies this`len, data
      ensures Bounded() && Lines() == old(Lines())[overflow..]
    {
      var keep := len - overflow;
      for i := 0 to keep
        invariant len == old(len)
        invariant forall k | 0 <= k < i :: data[k] == old(data[k + overflow])
        invariant forall k | i <= k < data.Length :: data[k] == old(data[k])
      {
        data[i] := data[i + overflow];
      }
      len := keep;
    }

    /** One batch of consumeLogStream. */
    method Receive(batch: Batch)
      requires Valid()
      modifies this, data
      ensures Valid() && (data == old(data) || fresh(data))
      ensures received == old(received) + [batch] && Lines() == Last(3000, History(received))
    {
      ReceiveIs(Lines(), received, batch);
      ghost var lines := if batch.reset then [] else Lines();
      if batch.reset {
        len := 0;
      }
      assert Lines() == lines;
      AppendAll(batch.messages);
      if len > MAX_LINES {
        Shift(len - MAX_LINES);
      }
      assert Lines() == Last(MAX_LINES, lines + batch.messages);
      received := received + [batch];
    }

    method CoreLogLines(max: int) returns (out: array<string>)
      requires Valid()
      ensures fresh(out)
      ensures out[..] == if max > 0 then Last(max, Last(MAX_LINES, History(received)))
                         else Last(MAX_LINES, History(received))
    {
      var start := 0;
      if max > 0 && len > max {
        start := len - max;
      }
      out := new string[len - start](_ => "");
      ghost var lines := Lines();
      for i := 0 to len - start
        invariant forall k | 0 <= k < i :: out[k] == lines[start + k]
      {
        out[i] := data[start + i];
      }
      assert out[..] == lines[start..];
    }
  }
}
