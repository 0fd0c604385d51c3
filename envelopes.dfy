/**
  The message envelope (queues/MessageEnvelope.go): correlation id, generated message id,
  message type, send time, payload and the lock-reference slot the queue fills on receive.
*/
module Envelopes {
  import opened Wrappers

  /**
    The outcome of handing a value to an encoder (gob in the constructor, JSON in
    SetMessageAsJson): the value was nil, it was encoded to `text`, or encoding failed.
  */
  datatype Encoding = NilValue | Encoded(text: string) | EncodingFailed

  class MessageEnvelope {
    /** The lock token set by the queue on receive; None is Go's nil. */
    var reference: Option<int>
    /** Nothing in the queue assigns these three after construction. */
    const correlationId: string
    const messageId: string
    const messageType: string
    /** Stamped by the queue on send; time is an integer clock. */
    var sentTime: int
    /** The stored payload; None is a nil buffer. */
    var message: Option<string>

    /**
      NewMessageEnvelope: stores the ids exactly as given, keeps the payload only when
      it was encoded, and leaves the reference absent; `messageId` is the value the id
      generator returned.
    */
    constructor NewMessageEnvelope(correlationId: string, messageType: string, payload: Encoding, messageId: string)
      ensures this.correlationId == correlationId && this.messageType == messageType
      ensures this.messageId == messageId
      ensures message == (if payload.Encoded? then Some(payload.text) else None)
      ensures reference == None && sentTime == 0
    {
      this.correlationId := correlationId;
      this.messageType := messageType;
      if payload.Encoded? {
        message := Some(payload.text);
      } else {
        message := None;
      }
      this.messageId := messageId;
      reference := None;
      sentTime := 0;
    }

    function GetReference(): Option<int>
      reads this
    {
      reference
    }

    /** After the call GetReference answers `value`; nothing else of the envelope changes. */
    method SetReference(value: Option<int>)
      modifies this`reference
      ensures GetReference() == value
    {
      reference := value;
    }

    /** The payload as text; a nil payload reads as the empty string. */
    function GetMessageAsString(): (r: string)
      reads this
      ensures message == None ==> r == ""
    {
      if message.Some? then message.value else ""
    }

    /** Stores `value` so that GetMessageAsString gives it back. */
    method SetMessageAsString(value: string)
      modifies this`message
      ensures message == Some(value)
      ensures GetMessageAsString() == value
    {
      message := Some(value);
    }

    /**
      The payload decoded by `unmarshal` (the JSON decoder, whose failure is None);
      a nil payload decodes to nil whatever the decoder.
    */
    function GetMessageAsJson<V>(unmarshal: string -> Option<V>): (r: Option<V>)
      reads this
      ensures message == None ==> r == None
      ensures message != None ==> r == unmarshal(message.value)
    {
      if message == None then None else unmarshal(message.value)
    }

    /** A nil value clears the payload, encoded text replaces it, a failed encoding leaves it. */
    method SetMessageAsJson(value: Encoding)
      modifies this`message
      ensures value.NilValue? ==> message == None
      ensures value.Encoded? ==> message == Some(value.text)
      ensures value.EncodingFailed? ==> message == old(message)
    {
      if value.NilValue? {
        message := None;
      } else if value.Encoded? {
        message := Some(value.text);
      }
    }

    /** "[<correlation id>,<message type>,<payload>]" with "---" standing for an empty or nil part. */
    function ToString(): (r: string)
      reads this
      ensures |r| >= 5 && r[0] == '[' && r[|r| - 1] == ']'
    {
      "[" + Field(correlationId) + "," + Field(messageType) + "," + PayloadField(message) + "]"
    }
  }

  /** How an id or a type appears in the envelope's text. */
  function Field(s: string): string
  {
    if s == "" then "---" else s
  }

  /** How the payload appears in the envelope's text: only a nil payload becomes "---". */
  function PayloadField(m: Option<string>): string
  {
    if m.None? then "---" else m.value
  }

  /** The three parts of an envelope's text, as read back by ParseEnvelopeText. */
  datatype EnvelopeText = EnvelopeText(correlationPart: string, typePart: string, payloadPart: string)

  /** Position of the first `c` in `s`, or |s| when there is none. */
  function IndexOf(s: string, c: char): (i: nat)
    ensures i <= |s|
    ensures i < |s| ==> s[i] == c
    ensures forall k :: 0 <= k < i ==> s[k] != c
  {
    if s == [] then 0
    else if s[0] == c then 0
    else 1 + IndexOf(s[1..], c)
  }

  /**
    Reads text in the format ToString writes: between the brackets, the first two
    commas end the first two parts and the rest is the payload.
  */
  function ParseEnvelopeText(t: string): Option<EnvelopeText>
  {
    if |t| < 2 || t[0] != '[' || t[|t| - 1] != ']' then None
    else
      var inner := t[1..|t| - 1];
      var i := IndexOf(inner, ',');
      if i == |inner| then None
      else
        var rest := inner[i + 1..];
        var j := IndexOf(rest, ',');
        if j == |rest| then None
        else Some(EnvelopeText(inner[..i], rest[..j], rest[j + 1..]))
  }

  lemma {:induction false} IndexOfFirst(a: string, b: string, c: char)
    requires c !in a
    ensures IndexOf(a + [c] + b, c) == |a|
  {
    if a != [] {
      assert (a + [c] + b)[1..] == a[1..] + [c] + b;
      IndexOfFirst(a[1..], b, c);
    }
  }

  /** The bracketed three-part text parses back into its parts when the first two hold no comma. */
  lemma {:induction false} ThreePartsParse(c: string, ty: string, p: string)
    requires ',' !in c && ',' !in ty
    ensures ParseEnvelopeText("[" + c + "," + ty + "," + p + "]") == Some(EnvelopeText(c, ty, p))
  {
    var t := "[" + c + "," + ty + "," + p + "]";
    var inner := c + [','] + (ty + [','] + p);
    assert t == ['['] + inner + [']'];
    assert t[1..|t| - 1] == inner;
    IndexOfFirst(c, ty + [','] + p, ',');
    assert inner[..|c|] == c;
    assert inner[|c| + 1..] == ty + [','] + p;
    IndexOfFirst(ty, p, ',');
    assert (ty + [','] + p)[..|ty|] == ty;
    assert (ty + [','] + p)[|ty| + 1..] == p;
  }

  /**
    ToString can be read back: when neither the correlation id nor the type holds a
    comma, parsing its text gives the three displayed parts, payload commas included.
  */
  lemma EnvelopeTextRoundTrip(e: MessageEnvelope)
    requires ',' !in e.correlationId && ',' !in e.messageType
    ensures ParseEnvelopeText(e.ToString())
            == Some(EnvelopeText(Field(e.correlationId), Field(e.messageType), PayloadField(e.message)))
  {
    ThreePartsParse(Field(e.correlationId), Field(e.messageType), PayloadField(e.message));
  }

  /** An envelope with empty ids and a nil payload renders as "[---,---,---]". */
  lemma EmptyEnvelopeText(e: MessageEnvelope)
    requires e.correlationId == "" && e.messageType == "" && e.message == None
    ensures e.ToString() == "[---,---,---]"
  {
  }

  /** An empty payload is shown as an empty part, unlike a nil one. */
  lemma EmptyPayloadIsNotNil(e: MessageEnvelope)
    requires e.message == Some("")
    ensures e.ToString() == "[" + Field(e.correlationId) + "," + Field(e.messageType) + ",]"
    ensures PayloadField(e.message) != PayloadField(None)
  {
  }
}
