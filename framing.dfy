/** Framing of requests and replies (kasa_control.py:96, 218-219, 227). */
module Framing {
  import opened Cipher

  /** The four bytes every request starts with. They are a constant, not the
      length of the payload. */
  const Prefix: seq<bv8> := [0x00, 0x00, 0x00, 0x23]

  /** The bytes sent for a ciphertext. Every frame starts with the same four
      bytes, whatever the length of the ciphertext, and carries the ciphertext
      unchanged after them. */
  function Frame(c: seq<bv8>): (f: seq<bv8>)
    ensures |f| == |c| + 4
    ensures f[..4] == Prefix
    ensures f[4..] == c
  {
    Prefix + c
  }

  /** Python's `raw[4:]`: whatever follows the first four bytes, and the empty
      string when there are no more than four. The dropped bytes are not
      checked. */
  function Unframe(raw: seq<bv8>): (c: seq<bv8>)
    ensures |raw| >= 4 ==> raw == raw[..4] + c
    ensures |raw| <= 4 ==> c == []
  {
    if |raw| <= 4 then [] else raw[4..]
  }

  /** Unframing drops any four leading bytes, not only the prefix. */
  lemma UnframeAnyHeader(header: seq<bv8>, c: seq<bv8>)
    requires |header| == 4
    ensures Unframe(header + c) == c
  {
    assert (header + c)[4..] == c;
  }

  /** Unframing undoes framing. */
  lemma UnframeFrame(c: seq<bv8>)
    ensures Unframe(Frame(c)) == c
  {
    UnframeAnyHeader(Prefix, c);
  }

  /** Framing undoes unframing for a reply that starts with the prefix. */
  lemma FrameUnframe(raw: seq<bv8>)
    requires |raw| >= 4 && raw[..4] == Prefix
    ensures Frame(Unframe(raw)) == raw
  {
    assert raw == raw[..4] + raw[4..];
  }

  /** A reply of at most four bytes carries an empty ciphertext. */
  lemma UnframeShort(raw: seq<bv8>)
    requires |raw| <= 4
    ensures Decode(Unframe(raw)) == []
  {
  }

  /** The body a frame's receiver recovers is the message that was encoded. */
  lemma ReadFramed(text: seq<bv8>)
    ensures Unframe(Frame(Encode(text))) == Encode(text)
    ensures Decode(Unframe(Frame(Encode(text)))) == text
  {
    UnframeFrame(Encode(text));
    DecodeEncode(text);
  }

  /** A reply the plug frames with any four-byte header and encrypts with the
      same cipher is read back as the text the plug meant. */
  lemma ReadDeviceReply(header: seq<bv8>, reply: seq<bv8>)
    requires |header| == 4
    ensures Decode(Unframe(header + Encode(reply))) == reply
  {
    UnframeAnyHeader(header, Encode(reply));
    DecodeEncode(reply);
  }

  /** `send = prefix; send += encode(result)`: the bytes written to the plug
      for the serialised command `text`. */
  method BuildRequest(text: seq<bv8>) returns (send: seq<bv8>)
    ensures send == Frame(Encode(text))
    ensures |send| == |text| + 4 && send[..4] == Prefix
    ensures Decode(Unframe(send)) == text
  {
    send := Prefix;
    var body := EncodeBytes(text);
    send := send + body;
    ReadFramed(text);
  }

  /** `decode(result[4:])`: the reply text recovered from the received
      bytes. */
  method ReadReply(received: seq<bv8>) returns (text: seq<bv8>)
    ensures text == Decode(Unframe(received))
    ensures |received| >= 4 ==> |text| == |received| - 4
    ensures |received| <= 4 ==> text == []
  {
    text := DecodeBytes(Unframe(received));
  }
}
