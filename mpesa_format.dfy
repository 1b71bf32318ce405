/** The strings the payment service derives before calling the gateway: the
    14-digit timestamp, the phone number without its `+`, the account
    reference cut from the invoice id, the text the password is encoded from,
    and the receipt number picked out of a callback. */
module MpesaFormat {
  import opened Common
  import opened Patterns
  import opened MpesaDto

  /** `s.replace(/[^0-9]/g, '')`. */
  function DigitsOnly(s: string): (r: string)
    ensures |r| <= |s|
    ensures forall i :: 0 <= i < |r| ==> IsDigit(r[i])
  {
    if s == [] then []
    else (if IsDigit(s[0]) then [s[0]] else []) + DigitsOnly(s[1..])
  }

  lemma {:induction false} DigitsOnlyAppend(a: string, b: string)
    ensures DigitsOnly(a + b) == DigitsOnly(a) + DigitsOnly(b)
  {
    if a == [] {
      assert a + b == b;
    } else {
      assert (a + b)[0] == a[0];
      assert (a + b)[1..] == a[1..] + b;
      DigitsOnlyAppend(a[1..], b);
    }
  }

  lemma {:induction false} DigitsOnlyKeepsDigits(s: string)
    requires forall i :: 0 <= i < |s| ==> IsDigit(s[i])
    ensures DigitsOnly(s) == s
  {
    if s != [] {
      DigitsOnlyKeepsDigits(s[1..]);
    }
  }

  /** `new Date().toISOString().replace(/[^0-9]/g, '').slice(0, 14)`, given
      the ISO string of the current instant. */
  function GatewayTimestamp(iso: string): (r: string)
    ensures |r| <= 14
    ensures forall i :: 0 <= i < |r| ==> IsDigit(r[i])
    ensures r <= DigitsOnly(iso)
    ensures |r| == 14 || r == DigitsOnly(iso)
  {
    var d := DigitsOnly(iso);
    d[..Min(14, |d|)]
  }

  predicate DigitsBetween(s: string, i: nat, j: nat)
    requires i <= j <= |s|
  {
    forall k :: i <= k < j ==> IsDigit(s[k])
  }

  /** The form `Date.prototype.toISOString` gives for years 0 to 9999:
      `YYYY-MM-DDTHH:mm:ss.sssZ`. */
  predicate IsIsoInstant(s: string) {
    && |s| == 24
    && DigitsBetween(s, 0, 4) && s[4] == '-'
    && DigitsBetween(s, 5, 7) && s[7] == '-'
    && DigitsBetween(s, 8, 10) && s[10] == 'T'
    && DigitsBetween(s, 11, 13) && s[13] == ':'
    && DigitsBetween(s, 14, 16) && s[16] == ':'
    && DigitsBetween(s, 17, 19) && s[19] == '.'
    && DigitsBetween(s, 20, 23) && s[23] == 'Z'
  }

  /** One run of digits followed by one separator. */
  lemma DigitsOnlyField(s: string, i: nat, j: nat)
    requires i <= j < |s|
    requires DigitsBetween(s, i, j) && !IsDigit(s[j])
    ensures DigitsOnly(s[i..]) == s[i..j] + DigitsOnly(s[j + 1..])
  {
    assert s[i..] == s[i..j] + s[j..];
    DigitsOnlyAppend(s[i..j], s[j..]);
    DigitsOnlyKeepsDigits(s[i..j]);
    assert s[j..][0] == s[j];
    assert s[j..][1..] == s[j + 1..];
  }

  /** For the ISO string of an instant, the timestamp is exactly its fourteen
      date and time digits, `YYYYMMDDHHmmss`; the milliseconds are cut off. */
  lemma IsoTimestamp(s: string)
    requires IsIsoInstant(s)
    ensures GatewayTimestamp(s) == s[0..4] + s[5..7] + s[8..10] + s[11..13] + s[14..16] + s[17..19]
    ensures |GatewayTimestamp(s)| == 14
  {
    DigitsOnlyField(s, 0, 4);
    DigitsOnlyField(s, 5, 7);
    DigitsOnlyField(s, 8, 10);
    DigitsOnlyField(s, 11, 13);
    DigitsOnlyField(s, 14, 16);
    DigitsOnlyField(s, 17, 19);
    DigitsOnlyField(s, 20, 23);
    assert s[24..] == [];
    assert s[0..] == s;
    var head := s[0..4] + s[5..7] + s[8..10] + s[11..13] + s[14..16] + s[17..19];
    var d := DigitsOnly(s);
    assert d == s[0..4] + (s[5..7] + (s[8..10] + (s[11..13] + (s[14..16] + (s[17..19] + s[20..23])))));
    assert d == head + s[20..23];
    assert |head| == 14;
    assert d[..14] == head;
  }

  /** `phone.replace('+', '')`: a string pattern replaces its first occurrence only. */
  function GatewayPhone(phone: string): (r: string)
    ensures var i := FindIndex(phone, c => c == '+');
      r == if i < |phone| then phone[..i] + phone[i + 1..] else phone
  {
    if phone == [] then []
    else if phone[0] == '+' then phone[1..]
    else [phone[0]] + GatewayPhone(phone[1..])
  }

  /** A valid phone becomes the twelve digits `254...` the gateway expects. */
  lemma GatewayPhoneOfValidPhone(phone: string)
    requires IsKenyanMobile(phone)
    ensures GatewayPhone(phone) == phone[1..]
    ensures |GatewayPhone(phone)| == 12 && GatewayPhone(phone)[..3] == "254"
    ensures forall i :: 0 <= i < 12 ==> IsDigit(GatewayPhone(phone)[i])
  {
    assert phone[0] == "+254"[0];
    assert phone[1..][..3] == phone[1..4] == "+254"[1..];
  }

  /** `invoice.id.substring(0, 12)`. */
  function AccountReference(invoiceId: string): (r: string)
    ensures |r| == Min(12, |invoiceId|)
    ensures r <= invoiceId
  {
    invoiceId[..Min(12, |invoiceId|)]
  }

  /** The account reference of a UUID invoice id is its first group of eight
      hex digits, the dash, and three more hex digits. */
  lemma AccountReferenceOfUuid(invoiceId: string)
    requires IsUuid(invoiceId)
    ensures |AccountReference(invoiceId)| == 12
    ensures AccountReference(invoiceId)[8] == '-'
  {
    UuidMeaning(invoiceId);
  }

  /** The text whose base64 encoding is the STK password. */
  function PasswordSource(shortcode: string, passkey: string, timestamp: string): string {
    shortcode + passkey + timestamp
  }

  const ReceiptItemName: string := "MpesaReceiptNumber"

  /** `CallbackMetadata.Item.find(item => item.Name === 'MpesaReceiptNumber')`. */
  function ReceiptItem(items: seq<CallbackItem>): (r: Option<CallbackItem>)
    ensures r.None? <==> forall i :: 0 <= i < |items| ==> items[i].name != ReceiptItemName
    ensures r.Some? ==> r.value.name == ReceiptItemName
    ensures r.Some? ==> exists i :: 0 <= i < |items| && items[i] == r.value
                          && forall j :: 0 <= j < i ==> items[j].name != ReceiptItemName
  {
    var i := FindIndex(items, (item: CallbackItem) => item.name == ReceiptItemName);
    if i < |items| then Some(items[i]) else None
  }
}
