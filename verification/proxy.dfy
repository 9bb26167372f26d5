/** proxyTourDirector: the framing of the reports sent to the tablet.

    A frame is a five-character prefix, `STEP:` for one bin report or `TOUR:` for the
    list of reports, followed by the serialised report. The serialisation itself (json-c)
    is not modelled: the payload is the text it produced. Each call hands one frame to
    the postman. */
module Proxy {
  import opened Text
  import Mailbox
  import Postman
  import Dispatcher

  const BinPrefix: string := "STEP:"
  const TourPrefix: string := "TOUR:"

  /** The longest payload that fits: `strncat` is bounded by the whole buffer size, not by
      the room left after the prefix, so the frame and its NUL fit in MAX_BUFFER_SIZE
      characters only up to this length. */
  const MaxPayload: nat := Postman.MaxBufferSize - 5 - 1

  /** A prefix as the proxy writes it: four tag characters and a colon. */
  predicate IsPrefix(prefix: string) {
    |prefix| == 5 && NoNul(prefix)
  }

  /** The local buffer after `char completed[MAX_BUFFER_SIZE] = prefix` and `strncat`:
      the prefix, the payload, then the zero fill of the initialiser. */
  function Frame(prefix: string, payload: string): (r: Postman.Buffer)
    requires IsPrefix(prefix) && NoNul(payload) && |payload| <= MaxPayload
    ensures r[..5] == prefix && r[5..5 + |payload|] == payload
    ensures CString(r) == prefix + payload
  {
    var text := prefix + payload;
    assert NoNul(text) by {
      forall i | 0 <= i < |text| ensures text[i] != NUL {
        if i >= 5 { assert text[i] == payload[i - 5]; }
      }
    }
    var fill := Nuls(Postman.MaxBufferSize - |text|);
    assert fill == [NUL] + fill[1..];
    assert text + fill == text + [NUL] + fill[1..];
    CStringTerminated(text, fill[1..]);
    text + fill
  }

  /** `ProxyTourDirector_setCurrentBinData`: one STEP frame goes to `PostmanBenno_sendMsg`. */
  function SetCurrentBinData(p: Postman.Postman, json: string): (r: Postman.Postman)
    requires Mailbox.HasRoom(p.inbox)
    requires NoNul(json) && |json| <= MaxPayload
    ensures r.inbox == p.inbox + [Postman.SendMsg] && r.state == p.state
    ensures r.sendBuffer == Frame(BinPrefix, json)
  {
    SendFrameWhole(BinPrefix, json);
    Postman.SendMessage(p, Frame(BinPrefix, json))
  }

  /** `ProxyTourDirector_setCurrentTourData`: one TOUR frame goes to `PostmanBenno_sendMsg`. */
  function SetCurrentTourData(p: Postman.Postman, json: string): (r: Postman.Postman)
    requires Mailbox.HasRoom(p.inbox)
    requires NoNul(json) && |json| <= MaxPayload
    ensures r.inbox == p.inbox + [Postman.SendMsg] && r.state == p.state
    ensures r.sendBuffer == Frame(TourPrefix, json)
  {
    SendFrameWhole(TourPrefix, json);
    Postman.SendMessage(p, Frame(TourPrefix, json))
  }

  /** Copying a frame into the postman's send buffer keeps it whole: the frame is one C
      string followed by zero fill, as `strncpy` would leave it. */
  lemma SendFrameWhole(prefix: string, payload: string)
    requires IsPrefix(prefix) && NoNul(payload) && |payload| <= MaxPayload
    ensures StrNCopy(Frame(prefix, payload), Postman.MaxBufferSize) == Frame(prefix, payload)
  {
    var f := Frame(prefix, payload);
    var text := prefix + payload;
    assert f == text + Nuls(Postman.MaxBufferSize - |text|);
  }

  /** Splitting a frame the dispatcher's way, the tag at 0..4 and the C string from index
      5, recovers the prefix's tag and the payload. */
  lemma SplitRecoversPayload(prefix: string, payload: string)
    requires IsPrefix(prefix) && NoNul(payload) && |payload| <= MaxPayload
    ensures Dispatcher.Tag(Frame(prefix, payload)) == prefix[..4]
    ensures CString(Dispatcher.Payload(Frame(prefix, payload))) == payload
  {
    var f := Frame(prefix, payload);
    assert f[..4] == prefix[..4];
    assert NoNul(f[..4]) by {
      forall i | 0 <= i < 4 ensures f[..4][i] != NUL { assert f[..4][i] == prefix[i]; }
    }
    Dispatcher.TagIsFirstFour(f);
    var fill := Nuls(Postman.MaxBufferSize - 5 - |payload|);
    assert f == prefix + payload + fill;
    assert Dispatcher.Payload(f) == payload + fill;
    CStringPadded(payload, |fill|);
    CStringOfNoNul(payload);
  }

  /** A TOUR frame read back by the dispatcher sets exactly the tour it carried. */
  lemma TourFrameRoundTrip(json: string)
    requires NoNul(json) && |json| <= MaxPayload
    ensures Dispatcher.SetMsg(Frame(TourPrefix, json)) == [Dispatcher.SetInitialTourData(json)]
  {
    SplitRecoversPayload(TourPrefix, json);
    Dispatcher.TourPayload(Frame(TourPrefix, json));
  }

  /** STEP is not among the tags the dispatcher knows: a bin report frame read back makes
      no call. */
  lemma BinFrameNotDispatched(json: string)
    requires NoNul(json) && |json| <= MaxPayload
    ensures Dispatcher.Tag(Frame(BinPrefix, json)) == "STEP"
    ensures Dispatcher.SetMsg(Frame(BinPrefix, json)) == []
  {
    SplitRecoversPayload(BinPrefix, json);
  }

  /** Once the link is up, the frame handed to the postman is written as it stands, in one
      MAX_BUFFER_SIZE write. */
  lemma BinReportWritten(p: Postman.Postman, json: string)
    requires p.state == Postman.Write && p.inbox == []
    requires NoNul(json) && |json| <= MaxPayload
    ensures Postman.Run(SetCurrentBinData(p, json), 1).1 ==
              [Postman.WriteFrame(Frame(BinPrefix, json))]
  {
    var q := SetCurrentBinData(p, json);
    Postman.RunStep(q, 1, Postman.SendMsg, []);
    var m := q.(inbox := []);
    assert Postman.Receive(m, Postman.SendMsg).0 == m;
    assert Postman.Run(m, 0).1 == [];
  }
}
