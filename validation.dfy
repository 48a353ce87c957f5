/** Creation-time input checks: the NotBeforeNow constraint
    (global/validation/NotBeforeNowValidator.java), the field constraints of
    domain/product/dto/ProductCreateRequest.java, and the 400 answer
    global/error/GlobalExceptionHandler.java builds from the violations.
    Times are whole seconds on the server's local clock. */
module Validation {
  import opened Base

  /** minusMinutes(10), in seconds. */
  const GraceSeconds: int := 600

  /** NotBeforeNowValidator.isValid: null passes (that is @NotNull's job);
      otherwise the time must be strictly after now minus ten minutes. */
  predicate NotBeforeNow(value: Option<int>, now: int)
  {
    value.None? || value.value > now - GraceSeconds
  }

  /** The boundary itself is refused, one second after it is accepted. */
  lemma GraceBoundary(now: int)
    ensures !NotBeforeNow(Some(now - GraceSeconds), now)
    ensures NotBeforeNow(Some(now - GraceSeconds + 1), now)
  {
  }

  /** Validity is upward closed: a later time than a valid one is valid,
      and every time from now on is valid. */
  lemma NotBeforeNowMonotone(t: int, later: int, now: int)
    requires NotBeforeNow(Some(t), now) && t <= later
    ensures NotBeforeNow(Some(later), now)
    ensures NotBeforeNow(Some(now), now)
  {
  }

  /** A request as it arrives, before validation: every field may be null. */
  datatype RawProductCreateRequest = RawProductCreateRequest(
    title: Option<string>,
    description: Option<string>,
    startingPrice: Option<int>,
    auctionStartTime: Option<int>,
    auctionEndTime: Option<int>)

  const TitleRequired: string := "상품 제목은 필수입니다."
  const DescriptionRequired: string := "상품 설명은 필수입니다."
  const PriceRequired: string := "시작 가격은 필수입니다."
  const PriceTooLow: string := "시작 가격은 100원 이상이어야 합니다."
  const StartRequired: string := "경매 시작 시간은 필수입니다."
  const StartInPast: string := "경매 시작 시간은 현재 또는 미래여야 합니다."
  const EndRequired: string := "경매 종료 시간은 필수입니다."
  const EndInPast: string := "경매 종료 시간은 현재 또는 미래여야 합니다."

  const MinStartingPrice: int := 100

  /** @NotBlank: not null and not only whitespace. */
  function NotBlankViolations(s: Option<string>, message: string): (v: seq<string>)
    ensures v == [] <==> s.Some? && !IsBlank(s.value)
    ensures v != [] ==> v == [message]
  {
    if s.None? || IsBlank(s.value) then [message] else []
  }

  /** @NotNull @Min(100): a null price fails only @NotNull, since @Min passes null. */
  function PriceViolations(price: Option<int>): (v: seq<string>)
    ensures v == [] <==> price.Some? && price.value >= MinStartingPrice
    ensures price.None? ==> v == [PriceRequired]
    ensures price.Some? && price.value < MinStartingPrice ==> v == [PriceTooLow]
  {
    if price.None? then [PriceRequired]
    else if price.value < MinStartingPrice then [PriceTooLow]
    else []
  }

  /** @NotNull @NotBeforeNow: a null time fails only @NotNull, since NotBeforeNow passes null. */
  function TimeViolations(t: Option<int>, now: int, required: string, inPast: string): (v: seq<string>)
    ensures v == [] <==> t.Some? && NotBeforeNow(t, now)
    ensures t.None? ==> v == [required]
    ensures t.Some? && !NotBeforeNow(t, now) ==> v == [inPast]
  {
    if t.None? then [required]
    else if !NotBeforeNow(t, now) then [inPast]
    else []
  }

  /** The messages of every failed constraint, field by field in declaration order. */
  function Violations(r: RawProductCreateRequest, now: int): (v: seq<string>)
    ensures |v| <= 5
  {
    NotBlankViolations(r.title, TitleRequired) +
    NotBlankViolations(r.description, DescriptionRequired) +
    PriceViolations(r.startingPrice) +
    TimeViolations(r.auctionStartTime, now, StartRequired, StartInPast) +
    TimeViolations(r.auctionEndTime, now, EndRequired, EndInPast)
  }

  /** The conjunction of the field constraints. */
  predicate ValidRequest(r: RawProductCreateRequest, now: int)
  {
    r.title.Some? && !IsBlank(r.title.value) &&
    r.description.Some? && !IsBlank(r.description.value) &&
    r.startingPrice.Some? && r.startingPrice.value >= MinStartingPrice &&
    r.auctionStartTime.Some? && NotBeforeNow(r.auctionStartTime, now) &&
    r.auctionEndTime.Some? && NotBeforeNow(r.auctionEndTime, now)
  }

  /** A request passes validation exactly when every constraint holds. */
  lemma ViolationsSpec(r: RawProductCreateRequest, now: int)
    ensures Violations(r, now) == [] <==> ValidRequest(r, now)
  {
  }

  /** Nothing relates the two times: an auction that ends before it starts
      passes validation. */
  lemma EndBeforeStartAccepted(now: int)
    ensures var r := RawProductCreateRequest(Some("t"), Some("d"), Some(100), Some(now + 60), Some(now));
            ValidRequest(r, now) && r.auctionEndTime.value < r.auctionStartTime.value
  {
    assert "t"[0] == 't' && "d"[0] == 'd';
  }

  datatype ErrorResponse = ErrorResponse(code: string, message: string)

  const InvalidInput: string := "INVALID_INPUT"
  const BAD_REQUEST: int := 400

  /** handleMethodArgumentNotValidException: the field errors' messages
      joined by ", ", under code INVALID_INPUT with status 400. */
  function HandleInvalidArgument(fieldErrorMessages: seq<string>): (r: (int, ErrorResponse))
    ensures r.0 == BAD_REQUEST && r.1.code == InvalidInput
    ensures |fieldErrorMessages| == 0 ==> r.1.message == ""
    ensures |fieldErrorMessages| == 1 ==> r.1.message == fieldErrorMessages[0]
    ensures |fieldErrorMessages| > 1 ==>
              r.1.message == fieldErrorMessages[0] + ", " + Join(fieldErrorMessages[1..], ", ")
  {
    (BAD_REQUEST, ErrorResponse(InvalidInput, Join(fieldErrorMessages, ", ")))
  }

  /** Adding one more error appends ", " and its message. */
  lemma {:induction false} JoinSnoc(parts: seq<string>, p: string, sep: string)
    requires |parts| > 0
    ensures Join(parts + [p], sep) == Join(parts, sep) + sep + p
  {
    if |parts| == 1 {
      assert (parts + [p])[1..] == [p];
    } else {
      assert (parts + [p])[1..] == parts[1..] + [p];
      JoinSnoc(parts[1..], p, sep);
    }
  }

  /** The joined message is as long as the messages plus one separator
      between each neighbouring pair. */
  lemma {:induction false} JoinLength(parts: seq<string>, sep: string)
    requires |parts| > 0
    ensures |Join(parts, sep)| == SumLengths(parts) + (|parts| - 1) * |sep|
  {
    if |parts| > 1 {
      JoinLength(parts[1..], sep);
    }
  }

  function SumLengths(parts: seq<string>): nat
  {
    if |parts| == 0 then 0 else |parts[0]| + SumLengths(parts[1..])
  }

  /** A request that is blank everywhere and has no price or times gets one
      message per field, in field order. */
  lemma EmptyRequestMessage(now: int)
    ensures HandleInvalidArgument(Violations(RawProductCreateRequest(None, None, None, None, None), now)).1.message ==
              TitleRequired + ", " + DescriptionRequired + ", " + PriceRequired + ", " + StartRequired + ", " + EndRequired
  {
    var v := Violations(RawProductCreateRequest(None, None, None, None, None), now);
    assert v == [TitleRequired, DescriptionRequired, PriceRequired, StartRequired, EndRequired];
    JoinFive(TitleRequired, DescriptionRequired, PriceRequired, StartRequired, EndRequired, ", ");
  }

  lemma JoinFive(a: string, b: string, c: string, d: string, e: string, sep: string)
    ensures Join([a, b, c, d, e], sep) == a + sep + b + sep + c + sep + d + sep + e
  {
    JoinCons(d, [e], sep);
    assert [d, e] == [d] + [e];
    JoinCons(c, [d, e], sep);
    assert [c, d, e] == [c] + [d, e];
    JoinCons(b, [c, d, e], sep);
    assert [b, c, d, e] == [b] + [c, d, e];
    JoinCons(a, [b, c, d, e], sep);
    assert [a, b, c, d, e] == [a] + [b, c, d, e];
  }
}
