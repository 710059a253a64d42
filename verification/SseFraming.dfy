/** The server-sent events the Codex stream writes, and the way a reader interprets them by sections
    9.2.5 and 9.2.6 of the WHATWG HTML Living Standard. Strings stand for decoded text. */
module SseFraming {

  const LF: char := '\n'
  const CR: char := '\r'

  // ---------------------------------------------------------------------------------------------
  // Writing
  // ---------------------------------------------------------------------------------------------

  /** Does a line break of the text start here, and how long is it? */
  function BreakLength(text: string): nat {
    if |text| > 0 && text[0] == LF then 1
    else if |text| > 1 && text[0] == CR && text[1] == LF then 2
    else 0
  }

  /** Every `\r?\n` replaced. */
  function ReplaceBreaks(text: string, replacement: string): string {
    if text == "" then ""
    else if BreakLength(text) > 0 then replacement + ReplaceBreaks(text[BreakLength(text)..], replacement)
    else [text[0]] + ReplaceBreaks(text[1..], replacement)
  }

  function EncodeFrame(text: string): string {
    "data: " + ReplaceBreaks(text, "\ndata: ") + "\n\n"
  }

  function EncodeAll(frames: seq<string>): string {
    if frames == [] then "" else EncodeFrame(frames[0]) + EncodeAll(frames[1..])
  }

  // ---------------------------------------------------------------------------------------------
  // Reading
  // ---------------------------------------------------------------------------------------------

  /** The index of the first colon, or the length of the line. */
  function FirstColon(line: string): (i: nat)
    ensures i <= |line|
  {
    if line == "" || line[0] == ':' then 0 else 1 + FirstColon(line[1..])
  }

  /** The data buffer after a line that is not empty. A line that starts with a colon is a comment; a
      field other than data leaves the buffer alone. */
  function OnField(line: string, data: string): string {
    var colon := FirstColon(line);
    var field := line[..colon];
    var raw := if colon < |line| then line[colon + 1..] else "";
    var value := if raw != "" && raw[0] == ' ' then raw[1..] else raw;
    if field == "data" then data + value + [LF] else data
  }

  /** An empty line dispatches what the buffer holds, without its last line feed. */
  function Dispatch(data: string): seq<string> {
    if data == "" then []
    else if data[|data| - 1] == LF then [data[..|data| - 1]] else [data]
  }

  /** The events dispatched from here on, with part of a line and the data buffer at hand; what is
      incomplete at the end of the stream is discarded. */
  function Decode(stream: string, line: string, data: string): seq<string> {
    if stream == "" then []
    else if stream[0] == LF || stream[0] == CR then
      var rest := if stream[0] == CR && |stream| > 1 && stream[1] == LF then stream[2..] else stream[1..];
      if line == "" then Dispatch(data) + Decode(rest, "", "")
      else Decode(rest, "", OnField(line, data))
    else Decode(stream[1..], line + [stream[0]], data)
  }

  function DecodeStream(stream: string): seq<string> {
    Decode(stream, "", "")
  }

  // ---------------------------------------------------------------------------------------------
  // Round trip
  // ---------------------------------------------------------------------------------------------

  function Normalised(text: string): string {
    ReplaceBreaks(text, [LF])
  }

  function NormalisedAll(frames: seq<string>): seq<string> {
    if frames == [] then [] else [Normalised(frames[0])] + NormalisedAll(frames[1..])
  }

  /** Every carriage return is part of a line break. */
  predicate NoLoneCR(text: string) {
    forall i :: 0 <= i < |text| && text[i] == CR ==> i + 1 < |text| && text[i + 1] == LF
  }

  predicate NoBreaks(text: string) {
    forall i :: 0 <= i < |text| ==> text[i] != LF && text[i] != CR
  }

  lemma {:induction false} ReadPlain(plain: string, rest: string, line: string, data: string)
    requires NoBreaks(plain)
    ensures Decode(plain + rest, line, data) == Decode(rest, line + plain, data)
  {
    if plain == "" {
      assert plain + rest == rest && line + plain == line;
    } else {
      var stream := plain + rest;
      assert stream[0] == plain[0] && stream[1..] == plain[1..] + rest;
      ReadPlain(plain[1..], rest, line + [plain[0]], data);
      assert line + [plain[0]] + plain[1..] == line + plain;
    }
  }

  lemma ReadBreak(rest: string, line: string, data: string)
    requires line != ""
    ensures Decode([LF] + rest, line, data) == Decode(rest, "", OnField(line, data))
  {
    assert ([LF] + rest)[1..] == rest;
  }

  lemma ReadEmptyLine(rest: string, data: string)
    ensures Decode([LF] + rest, "", data) == Dispatch(data) + Decode(rest, "", "")
  {
    assert ([LF] + rest)[1..] == rest;
  }

  /** A line `data: v` adds v to the buffer. */
  lemma DataField(v: string, data: string)
    ensures OnField("data: " + v, data) == data + v + [LF]
  {
    var line := "data: " + v;
    assert line[1..][1..][1..][1..] == line[4..] && line[4] == ':';
    assert FirstColon(line[4..]) == 0;
    assert line[1..][1..][1..][0] == 'a' && line[1..][1..][0] == 't' && line[1..][0] == 'a' && line[0] == 'd';
    assert FirstColon(line[1..][1..][1..]) == 1;
    assert FirstColon(line[1..][1..]) == 2;
    assert FirstColon(line[1..]) == 3;
    assert line[..4] == "data";
    assert line[5..] == " " + v;
    assert (" " + v)[1..] == v;
  }

  /** The blank line that ends a frame. */
  lemma FrameEnds(v: string, data: string, rest: string)
    ensures Decode("\n\n" + rest, "data: " + v, data) == [data + v] + Decode(rest, "", "")
  {
    DataField(v, data);
    assert "\n\n" + rest == [LF] + ([LF] + rest);
    ReadBreak([LF] + rest, "data: " + v, data);
    ReadEmptyLine(rest, data + v + [LF]);
    assert (data + v + [LF])[..|data + v + [LF]| - 1] == data + v;
  }

  /** A line break within a frame goes on with another data line. */
  lemma FrameContinues(v: string, data: string, more: string)
    ensures Decode("\ndata: " + more, "data: " + v, data) == Decode(more, "data: ", data + v + [LF])
  {
    DataField(v, data);
    assert "\ndata: " + more == [LF] + ("data: " + more);
    ReadBreak("data: " + more, "data: " + v, data);
    ReadPlain("data: ", more, "", data + v + [LF]);
    assert "" + "data: " == "data: ";
  }

  lemma FramePlain(c: char, v: string, data: string, more: string)
    requires c != LF && c != CR
    ensures Decode([c] + more, "data: " + v, data) == Decode(more, "data: " + (v + [c]), data)
  {
    ReadPlain([c], more, "data: " + v, data);
    assert "data: " + v + [c] == "data: " + (v + [c]);
  }

  /** The rest of a frame, read from the middle of a data line on. */
  lemma {:induction false} RestOfFrame(text: string, v: string, data: string, rest: string)
    requires NoLoneCR(text)
    ensures Decode(ReplaceBreaks(text, "\ndata: ") + ("\n\n" + rest), "data: " + v, data) ==
      [data + v + Normalised(text)] + Decode(rest, "", "")
    decreases |text|
  {
    var ending := "\n\n" + rest;
    if text == "" {
      FrameEnds(v, data, rest);
      assert "" + ending == ending && data + v + "" == data + v;
    } else if BreakLength(text) > 0 {
      var tail := text[BreakLength(text)..];
      TailOk(text, BreakLength(text));
      RestOfFrame(tail, "", data + v + [LF], rest);
      AfterBreak(text, tail, v, data, rest);
    } else {
      var tail := text[1..];
      TailOk(text, 1);
      RestOfFrame(tail, v + [text[0]], data, rest);
      AfterPlain(text, tail, v, data, rest);
    }
  }

  lemma AfterBreak(text: string, tail: string, v: string, data: string, rest: string)
    requires BreakLength(text) > 0 && tail == text[BreakLength(text)..]
    ensures Decode(ReplaceBreaks(text, "\ndata: ") + ("\n\n" + rest), "data: " + v, data) ==
      Decode(ReplaceBreaks(tail, "\ndata: ") + ("\n\n" + rest), "data: " + "", data + v + [LF])
    ensures data + v + Normalised(text) == (data + v + [LF]) + "" + Normalised(tail)
  {
    var more := ReplaceBreaks(tail, "\ndata: ") + ("\n\n" + rest);
    assert ReplaceBreaks(text, "\ndata: ") + ("\n\n" + rest) == "\ndata: " + more;
    FrameContinues(v, data, more);
    assert "data: " + "" == "data: ";
  }

  lemma AfterPlain(text: string, tail: string, v: string, data: string, rest: string)
    requires NoLoneCR(text) && text != "" && BreakLength(text) == 0 && tail == text[1..]
    ensures Decode(ReplaceBreaks(text, "\ndata: ") + ("\n\n" + rest), "data: " + v, data) ==
      Decode(ReplaceBreaks(tail, "\ndata: ") + ("\n\n" + rest), "data: " + (v + [text[0]]), data)
    ensures data + v + Normalised(text) == data + (v + [text[0]]) + Normalised(tail)
  {
    var more := ReplaceBreaks(tail, "\ndata: ") + ("\n\n" + rest);
    assert ReplaceBreaks(text, "\ndata: ") + ("\n\n" + rest) == [text[0]] + more;
    FramePlain(text[0], v, data, more);
  }

  lemma TailOk(text: string, n: nat)
    requires NoLoneCR(text) && n <= |text|
    ensures NoLoneCR(text[n..])
  {
    var tail := text[n..];
    forall i | 0 <= i < |tail| && tail[i] == CR ensures i + 1 < |tail| && tail[i + 1] == LF {
      assert text[n + i] == CR;
    }
  }

  lemma FrameDecodes(text: string, rest: string)
    requires NoLoneCR(text)
    ensures Decode(EncodeFrame(text) + rest, "", "") == [Normalised(text)] + Decode(rest, "", "")
  {
    var more := ReplaceBreaks(text, "\ndata: ") + ("\n\n" + rest);
    assert EncodeFrame(text) + rest == "data: " + more;
    ReadPlain("data: ", more, "", "");
    assert "" + "data: " == "data: " + "";
    RestOfFrame(text, "", "", rest);
    assert "" + "" + Normalised(text) == Normalised(text);
  }

  /** Reading back what was written gives the frames, in order, with line breaks normalised. */
  lemma {:induction false} RoundTrip(frames: seq<string>)
    requires forall f :: f in frames ==> NoLoneCR(f)
    ensures DecodeStream(EncodeAll(frames)) == NormalisedAll(frames)
  {
    if frames != [] {
      FrameDecodes(frames[0], EncodeAll(frames[1..]));
      RoundTrip(frames[1..]);
    }
  }

  // ---------------------------------------------------------------------------------------------
  // And only then
  // ---------------------------------------------------------------------------------------------

  lemma FieldHasNoCR(line: string, data: string)
    requires CR !in line && CR !in data
    ensures CR !in OnField(line, data)
  {}

  /** No event a reader sees contains a carriage return. */
  lemma {:induction false} DecodedHasNoCR(stream: string, line: string, data: string)
    requires CR !in line && CR !in data
    ensures forall e :: e in Decode(stream, line, data) ==> CR !in e
    decreases |stream|
  {
    if stream != "" {
      if stream[0] == LF || stream[0] == CR {
        var rest := if stream[0] == CR && |stream| > 1 && stream[1] == LF then stream[2..] else stream[1..];
        if line == "" {
          DecodedHasNoCR(rest, "", "");
        } else {
          FieldHasNoCR(line, data);
          DecodedHasNoCR(rest, "", OnField(line, data));
        }
      } else {
        DecodedHasNoCR(stream[1..], line + [stream[0]], data);
      }
    }
  }

  lemma {:induction false} LoneCRStays(text: string)
    requires !NoLoneCR(text)
    ensures CR in Normalised(text)
    decreases |text|
  {
    var n := if BreakLength(text) > 0 then BreakLength(text) else 1;
    var i :| 0 <= i < |text| && text[i] == CR && !(i + 1 < |text| && text[i + 1] == LF);
    if i >= n {
      assert text[n..][i - n] == CR;
      LoneCRStays(text[n..]);
    } else {
      assert i == 0 && BreakLength(text) == 0;
      assert Normalised(text)[0] == CR;
    }
  }

  lemma {:induction false} NormalisedAt(frames: seq<string>, i: nat)
    requires i < |frames|
    ensures Normalised(frames[i]) in NormalisedAll(frames)
  {
    if i > 0 { NormalisedAt(frames[1..], i - 1); }
  }

  /** The round trip holds for exactly the frames without a lone carriage return. */
  lemma RoundTripIff(frames: seq<string>)
    ensures DecodeStream(EncodeAll(frames)) == NormalisedAll(frames) <==> forall f :: f in frames ==> NoLoneCR(f)
  {
    if forall f :: f in frames ==> NoLoneCR(f) {
      RoundTrip(frames);
    } else {
      var i :| 0 <= i < |frames| && !NoLoneCR(frames[i]);
      LoneCRStays(frames[i]);
      NormalisedAt(frames, i);
      DecodedHasNoCR(EncodeAll(frames), "", "");
    }
  }

  /** For instance: a frame that is a lone carriage return. */
  lemma LoneReturnLost()
    ensures DecodeStream(EncodeAll(["\r"])) != NormalisedAll(["\r"])
  {
    RoundTripIff(["\r"]);
    assert "\r" in ["\r"] && !NoLoneCR("\r");
  }
}
