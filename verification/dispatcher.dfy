/** dispatcherBenno: the parser of the messages the tablet sends over the link.

    A message is a receive buffer whose first four characters are a tag and whose text
    from index 5 is the payload. `SetMsg` keeps the shape of `DispatcherBenno_setMsg`:
    two standalone tests for CSOK and STOP, then one if/else chain. It returns the
    handler calls the message triggers, each with the argument the source passes. */
module Dispatcher {
  import opened Text
  import ClockMaker

  /** The handlers a message can reach, with the argument each receives. */
  datatype Command =
    | ConnectionSignalOk                // Speaker_requestConnectionSignalOk
    | SignalEndTour                     // TourManager_signalEndTour
    | AckTourData                       // TourManager_ackTourData
    | SetCurrentDateTime(data: string)  // ClockMaker_setCurrentDateTime(dateTime)
    | SetInitialTourData(json: string)  // writeTourData, then TourManager_setInitialTourData
    | StartRest                         // TourManager_startRest
    | StopRest                          // TourManager_stopRest

  /** The tags that select a handler. */
  const Tags: set<string> := {"CSOK", "STOP", "ACKN", "DATI", "TOUR", "REST", "WAKE"}

  /** Where the payload starts: after the four tag characters and one separator. */
  const PayloadStart: nat := 5

  /** `firstFourChar` after the `memcpy`: the first four characters of the buffer and the
      static NUL at index 4, which nothing ever writes, read as a C string. Characters
      past the end of a short message read as the zero fill of the receive buffer. */
  function Tag(msg: string): (r: string)
    ensures |r| <= 4 && NoNul(r)
    ensures forall i :: 0 <= i < |r| ==> r[i] == At(msg, i)
  {
    CString([At(msg, 0), At(msg, 1), At(msg, 2), At(msg, 3)])
  }

  /** The text from index 5 (`receiveBuffer + 5`). */
  function Payload(msg: string): (r: string)
    ensures |msg| >= PayloadStart ==> msg == msg[..PayloadStart] + r
    ensures |msg| < PayloadStart ==> r == ""
  {
    if |msg| >= PayloadStart then msg[PayloadStart..] else ""
  }

  /** The else-chain after the two standalone tests. An empty tag and an unknown tag
      each only leave a trace. */
  function Chain(tag: string, msg: string): (r: seq<Command>)
    ensures |r| <= 1
    ensures r == [] <==> tag !in {"ACKN", "DATI", "TOUR", "REST", "WAKE"}
  {
    if tag == "ACKN" then [AckTourData]
    else if tag == "DATI" then [SetCurrentDateTime(StrNCopy(Payload(msg), ClockMaker.DateTimeSize))]
    else if tag == "TOUR" then [SetInitialTourData(CString(Payload(msg)))]
    else if tag == "REST" then [StartRest]
    else if tag == "WAKE" then [StopRest]
    else []
  }

  /** `DispatcherBenno_setMsg`: the handler calls one message makes, in order. CSOK and
      STOP are matched by standalone `if`s and then fall through the chain to its last
      branch, so no message makes more than one call. */
  function SetMsg(msg: string): (r: seq<Command>)
    ensures |r| <= 1
    ensures r == [] <==> Tag(msg) !in Tags
  {
    var tag := Tag(msg);
    (if tag == "CSOK" then [ConnectionSignalOk] else [])
      + (if tag == "STOP" then [SignalEndTour] else [])
      + Chain(tag, msg)
  }

  /** The tag-to-handler mapping, each entry in both directions. */
  lemma HandlerSelection(msg: string)
    ensures SetMsg(msg) == [ConnectionSignalOk] <==> Tag(msg) == "CSOK"
    ensures SetMsg(msg) == [SignalEndTour] <==> Tag(msg) == "STOP"
    ensures SetMsg(msg) == [AckTourData] <==> Tag(msg) == "ACKN"
    ensures |SetMsg(msg)| == 1 && SetMsg(msg)[0].SetCurrentDateTime? <==> Tag(msg) == "DATI"
    ensures |SetMsg(msg)| == 1 && SetMsg(msg)[0].SetInitialTourData? <==> Tag(msg) == "TOUR"
    ensures SetMsg(msg) == [StartRest] <==> Tag(msg) == "REST"
    ensures SetMsg(msg) == [StopRest] <==> Tag(msg) == "WAKE"
  {
    var t := Tag(msg);
    if t == "CSOK" {
      assert SetMsg(msg) == [ConnectionSignalOk] by { assert Chain(t, msg) == []; }
    } else if t == "STOP" {
      assert SetMsg(msg) == [SignalEndTour] by { assert Chain(t, msg) == []; }
    } else {
      assert SetMsg(msg) == Chain(t, msg);
    }
  }

  /** The calls depend on nothing but the tag and the payload's C string. */
  lemma CallsDependOnTagAndPayloadText(m1: string, m2: string)
    requires Tag(m1) == Tag(m2) && CString(Payload(m1)) == CString(Payload(m2))
    ensures SetMsg(m1) == SetMsg(m2)
  {
    assert StrNCopy(Payload(m1), ClockMaker.DateTimeSize) == StrNCopy(Payload(m2), ClockMaker.DateTimeSize);
  }

  /** With four NUL-free characters in front, the tag is exactly those four characters. */
  lemma TagIsFirstFour(msg: string)
    requires |msg| >= 4 && NoNul(msg[..4])
    ensures Tag(msg) == msg[..4]
  {
    assert [At(msg, 0), At(msg, 1), At(msg, 2), At(msg, 3)] == msg[..4];
    CStringOfNoNul(msg[..4]);
  }

  /** The character at index 4 is never looked at: replacing it changes neither the tag
      nor, for the handlers without a payload, the call made. */
  lemma FifthCharacterIgnored(msg: string, c: char)
    requires |msg| >= PayloadStart
    ensures var msg' := msg[..4] + [c] + msg[PayloadStart..];
            && Tag(msg') == Tag(msg)
            && Payload(msg') == Payload(msg)
            && SetMsg(msg') == SetMsg(msg)
  {
    var msg' := msg[..4] + [c] + msg[PayloadStart..];
    assert msg'[..4] == msg[..4];
    assert msg'[PayloadStart..] == msg[PayloadStart..];
  }

  /** A buffer starting with NUL has the empty tag and makes no call; so does any tag
      shorter than four characters, since no known tag is that short. */
  lemma ShortTagIgnored(msg: string, i: nat)
    requires i < 4 && At(msg, i) == NUL
    ensures |Tag(msg)| <= i
    ensures SetMsg(msg) == []
  {
    var b := [At(msg, 0), At(msg, 1), At(msg, 2), At(msg, 3)];
    assert b[i] == NUL;
  }

  /** The DATI payload: the date-time buffer is 500 characters, and read back as a C
      string it is the payload text cut to 500 characters. */
  lemma DateTimePayload(msg: string)
    requires Tag(msg) == "DATI"
    ensures var d := StrNCopy(Payload(msg), ClockMaker.DateTimeSize);
            && SetMsg(msg) == [SetCurrentDateTime(d)]
            && |d| == ClockMaker.DateTimeSize
            && CString(d) == (var p := CString(Payload(msg));
                              if |p| >= ClockMaker.DateTimeSize then p[..ClockMaker.DateTimeSize] else p)
  {
    StrNCopyReadBack(Payload(msg), ClockMaker.DateTimeSize);
  }

  /** A DATI message whose payload is a NUL-terminated text of fewer than 500 characters
      hands the clock a buffer that reads back as exactly that text. */
  lemma DateTimeTextCarried(sep: char, text: string, rest: string)
    requires NoNul(text) && |text| < ClockMaker.DateTimeSize
    ensures var msg := "DATI" + [sep] + text + [NUL] + rest;
            && SetMsg(msg) == [SetCurrentDateTime(StrNCopy(Payload(msg), ClockMaker.DateTimeSize))]
            && CString(SetMsg(msg)[0].data) == text
  {
    var msg := "DATI" + [sep] + text + [NUL] + rest;
    assert msg[..4] == "DATI";
    TagIsFirstFour(msg);
    assert Payload(msg) == text + [NUL] + rest;
    CStringTerminated(text, rest);
    DateTimePayload(msg);
  }

  /** A DATI message carrying a formatted date-time hands the clock maker a buffer that
      parses back to that time, and the command built from it is the prefix followed by
      that rendering, unquoted. */
  lemma DateTimeMessageCarriesTime(sep: char, t: ClockMaker.Tm, rest: string)
    requires ClockMaker.InRange(t)
    ensures var msg := "DATI" + [sep] + ClockMaker.Format(t) + [NUL] + rest;
            && |SetMsg(msg)| == 1 && SetMsg(msg)[0].SetCurrentDateTime?
            && ClockMaker.Parse(CString(SetMsg(msg)[0].data)) == Some(t)
            && ClockMaker.SetClockCommand(SetMsg(msg)[0].data) == ClockMaker.SetDatePrefix + ClockMaker.Format(t)
  {
    var f := ClockMaker.Format(t);
    ClockMaker.FormatRoundTrip(t);
    ClockMaker.LayoutPlain(f);
    DateTimeTextCarried(sep, f, rest);
  }

  /** The TOUR payload is the C string from index 5: whatever follows its terminator is
      not part of the tour. */
  lemma TourPayload(msg: string)
    requires Tag(msg) == "TOUR"
    ensures SetMsg(msg) == [SetInitialTourData(CString(Payload(msg)))]
    ensures NoNul(SetMsg(msg)[0].json) && |SetMsg(msg)[0].json| <= |Payload(msg)|
  {
  }
}
