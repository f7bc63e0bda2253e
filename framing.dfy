/**
 * The `;`-terminated record framing shared by the coordinator, the block-claim
 * server's acknowledgements and both bot-side clients. A record's text (its
 * JSON serialisation, which this model treats as opaque) is written followed
 * by one `;`; a received chunk is cut at every `;` (`String.prototype.split`).
 */
module Framing {
  import opened JsArrays

  const Terminator: char := ';'

  /** What `sendData` and the clients' `send(… + ';')` write for one record. */
  function Frame(record: string): string
  {
    record + [Terminator]
  }

  /** The bytes of several records written one after the other. */
  function FrameAll(records: seq<string>): string
  {
    if records == [] then [] else Frame(records[0]) + FrameAll(records[1..])
  }

  /** `s.split(sep)`: the pieces between separators; always at least one piece. */
  function Split(s: string, sep: char): (pieces: seq<string>)
    ensures |pieces| >= 1
    ensures forall i :: 0 <= i < |pieces| ==> sep !in pieces[i]
  {
    if s == [] then [[]]
    else if s[0] == sep then [[]] + Split(s[1..], sep)
    else
      var rest := Split(s[1..], sep);
      [[s[0]] + rest[0]] + rest[1..]
  }

  /** `pieces.join(sep)`, the inverse of `Split`. */
  function Join(pieces: seq<string>, sep: char): string
    requires |pieces| >= 1
  {
    if |pieces| == 1 then pieces[0] else pieces[0] + [sep] + Join(pieces[1..], sep)
  }

  /** The pieces the control client keeps: `messages.filter(m => m.length > 0)`. */
  function NonEmpty(pieces: seq<string>): (r: seq<string>)
    ensures forall i :: 0 <= i < |r| ==> r[i] != [] && r[i] in pieces
    ensures forall i :: 0 <= i < |pieces| && pieces[i] != [] ==> pieces[i] in r
  {
    if pieces == [] then []
    else if pieces[0] == [] then NonEmpty(pieces[1..])
    else [pieces[0]] + NonEmpty(pieces[1..])
  }

  /** Splitting loses nothing: joining the pieces gives the chunk back. */
  lemma {:induction false} JoinSplit(s: string, sep: char)
    ensures Join(Split(s, sep), sep) == s
  {
    if s != [] {
      JoinSplit(s[1..], sep);
      var rest := Split(s[1..], sep);
      if s[0] == sep {
        assert Split(s, sep)[1..] == rest;
      } else if |rest| > 1 {
        assert Split(s, sep)[1..] == rest[1..];
        assert s == [s[0]] + s[1..];
      }
    }
  }

  /** A record that holds no separator is one piece, and splitting resumes after it. */
  lemma {:induction false} SplitAfterRecord(a: string, b: string, sep: char)
    requires sep !in a
    ensures Split(a + [sep] + b, sep) == [a] + Split(b, sep)
  {
    if a == [] {
      assert ([] + [sep] + b)[1..] == b;
    } else {
      SplitAfterRecord(a[1..], b, sep);
      assert (a + [sep] + b)[1..] == a[1..] + [sep] + b;
      assert [a[0]] + a[1..] == a;
    }
  }

  /**
   * Framing round trip: records that hold no `;` come back, in order, from
   * the split of what was written, followed by the empty piece after the
   * last terminator.
   */
  lemma {:induction false} SplitFrameAll(records: seq<string>)
    requires forall i :: 0 <= i < |records| ==> Terminator !in records[i]
    ensures Split(FrameAll(records), Terminator) == records + [[]]
  {
    if records != [] {
      SplitFrameAll(records[1..]);
      SplitAfterRecord(records[0], FrameAll(records[1..]), Terminator);
      assert records == [records[0]] + records[1..];
    }
  }

  /** Dropping empty pieces after the split gives back exactly the non-empty records written. */
  lemma {:induction false} NonEmptySplitFrameAll(records: seq<string>)
    requires forall i :: 0 <= i < |records| ==> Terminator !in records[i] && records[i] != []
    ensures NonEmpty(Split(FrameAll(records), Terminator)) == records
  {
    SplitFrameAll(records);
    NonEmptyAll(records);
  }

  lemma {:induction false} NonEmptyAll(records: seq<string>)
    requires forall i :: 0 <= i < |records| ==> records[i] != []
    ensures NonEmpty(records + [[]]) == records
  {
    if records != [] {
      NonEmptyAll(records[1..]);
      assert (records + [[]])[1..] == records[1..] + [[]];
      assert records == [records[0]] + records[1..];
    }
  }

  /** Each piece parsed, in order. */
  function Parses<T>(pieces: seq<string>, parse: string -> Option<T>): (ms: seq<Option<T>>)
    ensures |ms| == |pieces| && forall k :: 0 <= k < |pieces| ==> ms[k] == parse(pieces[k])
  {
    seq(|pieces|, k requires 0 <= k < |pieces| => parse(pieces[k]))
  }

}
