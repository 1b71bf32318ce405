/** The M-Pesa request bodies: the STK-push initiation body with its
    class-validator rules, and the shape of the provider's callback. */
module MpesaDto {
  import opened Common
  import opened Patterns

  datatype InitiateStkPushDto = InitiateStkPushDto(rentInvoiceId: string, phone: string, amount: int)

  const HexDigits: set<char> := Digits + {'a', 'b', 'c', 'd', 'e', 'f', 'A', 'B', 'C', 'D', 'E', 'F'}

  /** `@IsUUID()`: the 8-4-4-4-12 hexadecimal form of a UUID (RFC 4122,
      section 3), letters in either case. */
  const UuidShape: Pattern :=
    Times(HexDigits, 8) + Lit("-") + Times(HexDigits, 4) + Lit("-") + Times(HexDigits, 4)
    + Lit("-") + Times(HexDigits, 4) + Lit("-") + Times(HexDigits, 12)

  predicate IsUuid(s: string) {
    Match(UuidShape, s)
  }

  predicate IsHexDigit(c: char) {
    c in HexDigits
  }

  predicate IsDashPosition(i: int) {
    i == 8 || i == 13 || i == 18 || i == 23
  }

  /** A UUID is 36 characters: dashes at offsets 8, 13, 18 and 23, hex digits elsewhere. */
  lemma UuidMeaning(s: string)
    ensures IsUuid(s) <==>
      && |s| == 36
      && forall i :: 0 <= i < 36 ==> if IsDashPosition(i) then s[i] == '-' else IsHexDigit(s[i])
  {
    assert Fixed(UuidShape);
    MatchFixed(UuidShape, s);
    assert |UuidShape| == 36;
    assert forall i :: 0 <= i < 36 ==> UuidShape[i].chars == if IsDashPosition(i) then {'-'} else HexDigits;
  }

  /** All rules of the STK-push body: a UUID invoice id (`@IsUUID`,
      `@IsNotEmpty`), the Kenyan phone format, and an integer amount of at least 1. */
  predicate Valid(dto: InitiateStkPushDto) {
    && IsUuid(dto.rentInvoiceId)
    && dto.rentInvoiceId != ""
    && Match(KenyanPhone, dto.phone)
    && dto.amount >= 1
  }

  lemma ValidMeaning(dto: InitiateStkPushDto)
    ensures Valid(dto) <==> IsUuid(dto.rentInvoiceId) && IsKenyanMobile(dto.phone) && dto.amount >= 1
  {
    KenyanPhoneMeaning(dto.phone);
    UuidMeaning(dto.rentInvoiceId);
  }

  /** A callback metadata value is a string or a number in the provider's JSON. */
  datatype CallbackValue = Text(text: string) | Number(n: int)

  datatype CallbackItem = CallbackItem(name: string, value: CallbackValue)

  /** `Body.stkCallback`: the correlation id and numeric result code are always
      present; the metadata list only on some callbacks. */
  datatype StkCallback = StkCallback(
    merchantRequestId: string,
    checkoutRequestId: string,
    resultCode: int,
    resultDesc: string,
    callbackMetadata: Option<seq<CallbackItem>>)

  datatype MpesaCallbackDto = MpesaCallbackDto(stkCallback: StkCallback)
}
