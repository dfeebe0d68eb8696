/** The opaque page cursor: an authenticated keyset position bound to one normalized filter. */
module Cursor {
  import opened Basics
  import opened Base64Url

  /** Times are counted from the zero time. */
  const ZERO_TIME: int := 0

  const CURSOR_VERSION: int := 1

  datatype CursorPosition = CursorPosition(occurredAt: int, eventId: Uuid)

  datatype Payload = Payload(version: int, occurredAt: int, eventId: Uuid, fingerprint: string)

  datatype CursorError = InvalidCursor

  /** The keyed hash and the JSON form of a payload, taken as functions. */
  datatype Codec = Codec(
    sign: seq<Byte> -> seq<Byte>,
    marshal: Payload -> seq<Byte>,
    unmarshal: seq<Byte> -> Option<Payload>)
  {
    /** What JSON is relied on for. */
    ghost predicate Faithful() {
      forall p: Payload :: unmarshal(marshal(p)) == Some(p)
    }

    function Encode(position: CursorPosition, fingerprint: string): Result<string, CursorError> {
      if position.occurredAt == ZERO_TIME || position.eventId == NIL_UUID || fingerprint == "" then Err(InvalidCursor)
      else
        var payload := marshal(Payload(CURSOR_VERSION, position.occurredAt, position.eventId, fingerprint));
        Ok(Base64Url.Encode(payload) + "." + Base64Url.Encode(sign(payload)))
    }

    /** The empty cursor asks for the first page. */
    function Decode(value: string, fingerprint: string): Result<Option<CursorPosition>, CursorError> {
      if value == "" then Ok(None)
      else if SplitAt(value, 0).None? then Err(InvalidCursor)
      else
        var at := SplitAt(value, 0).value;
        var payload := Base64Url.Decode(value[..at]);
        var signature := Base64Url.Decode(value[at + 1..]);
        if payload.None? || signature.None? || signature.value != sign(payload.value) then Err(InvalidCursor)
        else if unmarshal(payload.value).None? then Err(InvalidCursor)
        else
          var p := unmarshal(payload.value).value;
          if p.version != CURSOR_VERSION || p.occurredAt == ZERO_TIME || p.eventId == NIL_UUID
              || p.fingerprint != fingerprint
          then Err(InvalidCursor)
          else Ok(Some(CursorPosition(p.occurredAt, p.eventId)))
    }
  }

  /** The first dot at or after an index. */
  function SplitAt(value: string, from: nat): (r: Option<nat>)
    requires from <= |value|
    ensures r.Some? ==> from <= r.value < |value| && value[r.value] == '.' && '.' !in value[from..r.value]
    ensures r.None? ==> '.' !in value[from..]
    decreases |value| - from
  {
    if from == |value| then None
    else if value[from] == '.' then Some(from)
    else SplitAt(value, from + 1)
  }

  lemma SplitJoined(left: string, right: string)
    requires '.' !in left
    ensures SplitAt(left + "." + right, 0) == Some(|left|)
  {
    var s := left + "." + right;
    assert s[|left|] == '.' && s[|left|] in s[0..];
    forall k | 0 <= k < |left|
      ensures s[k] != '.'
    {
      assert s[k] == left[k] && left[k] in left;
    }
  }

  /** A cursor is made exactly for a real position and a fingerprint. */
  lemma EncodesIff(c: Codec, position: CursorPosition, fingerprint: string)
    ensures c.Encode(position, fingerprint).Ok?
            <==> position.occurredAt != 0 && position.eventId != 0 && fingerprint != ""
  {
  }

  /** A cursor decodes to the position it was made from, and only under the fingerprint it was made for. */
  lemma CursorRoundTrip(c: Codec, position: CursorPosition, fingerprint: string, other: string)
    requires c.Faithful()
    requires position.occurredAt != ZERO_TIME && position.eventId != NIL_UUID && fingerprint != ""
    ensures c.Encode(position, fingerprint).Ok? && c.Encode(position, fingerprint).value != ""
    ensures var r := c.Decode(c.Encode(position, fingerprint).value, other);
            if other == fingerprint then r == Ok(Some(position)) else r == Err(InvalidCursor)
  {
    var payload := c.marshal(Payload(CURSOR_VERSION, position.occurredAt, position.eventId, fingerprint));
    var left, right := Base64Url.Encode(payload), Base64Url.Encode(c.sign(payload));
    Base64Url.RoundTrip(payload);
    Base64Url.RoundTrip(c.sign(payload));
    SplitJoined(left, right);
    var value := left + "." + right;
    assert value[..|left|] == left && value[|left| + 1..] == right;
  }

  /** Only the empty cursor asks for the first page. */
  lemma NoPositionIff(c: Codec, value: string, fingerprint: string)
    ensures c.Decode(value, fingerprint) == Ok(None) <==> value == ""
  {
  }

  /**
   A cursor is accepted only with a valid signature over a payload that names this fingerprint and a real position,
   which is the position it is read as.
   */
  lemma AcceptedCursorIsSigned(c: Codec, value: string, fingerprint: string)
    requires c.Decode(value, fingerprint).Ok? && value != ""
    ensures c.Decode(value, fingerprint).value.Some?
            && c.Decode(value, fingerprint).value.value.occurredAt != 0
            && c.Decode(value, fingerprint).value.value.eventId != 0
    ensures exists left: string, right: string, payload ::
              && value == left + "." + right
              && Base64Url.Decode(left) == Some(payload)
              && Base64Url.Decode(right) == Some(c.sign(payload))
              && c.unmarshal(payload).Some?
              && c.unmarshal(payload).value.fingerprint == fingerprint
              && c.unmarshal(payload).value.version == 1
              && c.Decode(value, fingerprint).value.value
                 == CursorPosition(c.unmarshal(payload).value.occurredAt, c.unmarshal(payload).value.eventId)
  {
    var at := SplitAt(value, 0).value;
    var left, right := value[..at], value[at + 1..];
    var payload := Base64Url.Decode(left).value;
    assert value == left + "." + right;
  }
}
