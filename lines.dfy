/**
 Text handling of the broadcast engine: how a published payload is cut into
 delivery units (`str_data.split('\n')`, each piece with '\n' re-appended) and
 how one delivered unit is framed for an event-stream client
 (`message_to_client.format(data)`).
 */
module Lines {

  /** Number of '\n' characters in `s`. */
  function CountNewlines(s: string): nat
  {
    if s == [] then 0
    else (if s[0] == '\n' then 1 else 0) + CountNewlines(s[1..])
  }

  /** `'\n'.join(parts)`: the pieces with one '\n' between neighbours. */
  function Join(parts: seq<string>): string
  {
    if |parts| == 0 then ""
    else if |parts| == 1 then parts[0]
    else parts[0] + "\n" + Join(parts[1..])
  }

  /** No piece of `parts` contains '\n'. */
  predicate NoNewlines(parts: seq<string>)
  {
    forall k | 0 <= k < |parts| :: '\n' !in parts[k]
  }

  /**
   `s.split('\n')` as Python computes it: never empty (the empty string
   splits into one empty piece), one more piece than there are separators,
   no piece contains the separator, and joining the pieces back gives `s`.
   */
  function Split(s: string): (r: seq<string>)
    ensures |r| == CountNewlines(s) + 1
    ensures NoNewlines(r)
    ensures Join(r) == s
  {
    if s == [] then [""]
    else
      var rest := Split(s[1..]);
      if s[0] == '\n' then
        assert ([""] + rest)[1..] == rest;
        [""] + rest
      else
        var r := [[s[0]] + rest[0]] + rest[1..];
        assert r[1..] == rest[1..];
        assert |rest| > 1 ==> Join(rest) == rest[0] + "\n" + Join(rest[1..]);
        assert s == [s[0]] + s[1..];
        r
  }

  /** Splitting a piece without separators followed by a separator. */
  lemma {:induction false} SplitCons(a: string, rest: string)
    requires '\n' !in a
    ensures Split(a + "\n" + rest) == [a] + Split(rest)
    decreases |a|
  {
    if a == [] {
      assert a + "\n" + rest == "\n" + rest;
      assert ("\n" + rest)[1..] == rest;
    } else {
      var s := a + "\n" + rest;
      assert s[0] == a[0] && s[1..] == a[1..] + "\n" + rest;
      SplitCons(a[1..], rest);
      assert [a[0]] + a[1..] == a;
    }
  }

  /**
   The converse round trip: pieces without separators are exactly what
   splitting their join gives back, so `Split` and `Join` are inverses.
   */
  lemma {:induction false} SplitJoin(parts: seq<string>)
    requires |parts| > 0 && NoNewlines(parts)
    ensures Split(Join(parts)) == parts
    decreases |parts|
  {
    if |parts| == 1 {
      SplitNoSeparator(parts[0]);
    } else {
      assert NoNewlines(parts[1..]) by {
        forall k | 0 <= k < |parts[1..]| ensures '\n' !in parts[1..][k] {
          assert parts[1..][k] == parts[k + 1];
        }
      }
      SplitJoin(parts[1..]);
      assert '\n' !in parts[0];
      SplitCons(parts[0], Join(parts[1..]));
      assert [parts[0]] + parts[1..] == parts;
    }
  }

  /** A string without separators splits into itself alone. */
  lemma {:induction false} SplitNoSeparator(a: string)
    requires '\n' !in a
    ensures Split(a) == [a]
    decreases |a|
  {
    if a != [] {
      assert '\n' !in a[1..] by {
        forall k | 0 <= k < |a[1..]| ensures a[1..][k] != '\n' {
          assert a[1..][k] == a[k + 1];
        }
      }
      SplitNoSeparator(a[1..]);
      assert [a[0]] + a[1..] == a;
    }
  }

  /** `['{}\n'.format(line) for line in lines]`: each piece re-terminated. */
  function Terminated(lines: seq<string>): (r: seq<string>)
    ensures |r| == |lines|
    ensures forall k | 0 <= k < |r| :: r[k] == lines[k] + "\n"
  {
    if lines == [] then [] else [lines[0] + "\n"] + Terminated(lines[1..])
  }

  /** Concatenation of a sequence of strings. */
  function Concat(parts: seq<string>): string
  {
    if parts == [] then "" else parts[0] + Concat(parts[1..])
  }

  /** Re-terminating the pieces and gluing them gives their join plus a final '\n'. */
  lemma {:induction false} ConcatTerminated(lines: seq<string>)
    requires |lines| > 0
    ensures Concat(Terminated(lines)) == Join(lines) + "\n"
    decreases |lines|
  {
    if |lines| > 1 {
      ConcatTerminated(lines[1..]);
      assert Terminated(lines)[1..] == Terminated(lines[1..]);
    } else {
      assert Terminated(lines)[1..] == [];
    }
  }

  /** A non-empty string whose only '\n' is its last character. */
  predicate IsLine(u: string)
  {
    |u| > 0 && u[|u| - 1] == '\n' && '\n' !in u[..|u| - 1]
  }

  /**
   The delivery units that one publish of `data` enqueues into one subscriber
   queue (the body of `_publish_single`). There is one unit per line of `data`,
   i.e. one more than the number of '\n' in it. Every unit is non-empty, ends
   with '\n' and holds no other '\n', and the units glued together are exactly
   `data` followed by '\n'.
   */
  function PublishUnits(data: string): (r: seq<string>)
    ensures |r| == CountNewlines(data) + 1
    ensures forall k | 0 <= k < |r| :: IsLine(r[k])
    ensures Concat(r) == data + "\n"
  {
    var lines := Split(data);
    var r := Terminated(lines);
    forall k | 0 <= k < |r| ensures IsLine(r[k]) {
      assert r[k] == lines[k] + "\n";
      assert r[k][..|r[k]| - 1] == lines[k];
    }
    ConcatTerminated(lines);
    r
  }

  /** The event-stream header written before each item: "event: card\ndata: ". */
  const FrameHeader: string := "event: card\ndata: "

  /**
   `message_to_client.format(data)`: one event-stream frame carrying `data`.
   The frame is the header, the item unchanged, and a blank-line terminator,
   so the item can be read back from between the two.
   */
  function MessageToClient(data: string): (r: string)
    ensures |r| == |FrameHeader| + |data| + 2
    ensures r[..|FrameHeader|] == FrameHeader
    ensures r[|FrameHeader|..|r| - 2] == data
    ensures r[|r| - 2..] == "\n\n"
  {
    FrameHeader + data + "\n\n"
  }

  /**
   A published unit already ends with '\n', so its frame ends with three
   '\n' characters (an empty line before the blank-line terminator).
   */
  lemma UnitFrameEnding(data: string, k: nat)
    requires k < |PublishUnits(data)|
    ensures var f := MessageToClient(PublishUnits(data)[k]); |f| >= 3 && f[|f| - 3..] == "\n\n\n"
  {
    LineFrameEnding(PublishUnits(data)[k]);
  }

  /** The frame of a line ends with three '\n'. */
  lemma LineFrameEnding(u: string)
    requires IsLine(u)
    ensures var f := MessageToClient(u); |f| >= 3 && f[|f| - 3..] == "\n\n\n"
  {
    var f := MessageToClient(u);
    assert f[|f| - 3] == u[|u| - 1];
  }

  /**
   A payload of two lines `a` and `b` (neither holding '\n') gives exactly
   two delivery units, `a` then `b`, each with its '\n'.
   */
  lemma TwoPieceUnits(a: string, b: string)
    requires '\n' !in a && '\n' !in b
    ensures PublishUnits(a + "\n" + b) == [a + "\n", b + "\n"]
  {
    SplitCons(a, b);
    SplitNoSeparator(b);
    assert Split(a + "\n" + b) == [a, b];
    var t := Terminated([a, b]);
    assert t == [a + "\n", b + "\n"];
  }

  /** The two-line payload "A1B2\nC3D4" gives two delivery units, in order. */
  lemma TwoLineUnits()
    ensures PublishUnits("A1B2\nC3D4") == ["A1B2\n", "C3D4\n"]
  {
    TwoPieceUnits("A1B2", "C3D4");
    assert "A1B2" + "\n" + "C3D4" == "A1B2\nC3D4";
    assert "A1B2" + "\n" == "A1B2\n" && "C3D4" + "\n" == "C3D4\n";
  }

  /** The frames written for the two units of "A1B2\nC3D4". */
  lemma TwoLineFrames()
    ensures MessageToClient("A1B2\n") == "event: card\ndata: A1B2\n\n\n"
    ensures MessageToClient("C3D4\n") == "event: card\ndata: C3D4\n\n\n"
  {
    assert FrameHeader + "A1B2\n" + "\n\n" == "event: card\ndata: A1B2\n\n\n";
    assert FrameHeader + "C3D4\n" + "\n\n" == "event: card\ndata: C3D4\n\n\n";
  }
}
