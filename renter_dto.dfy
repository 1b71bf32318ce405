/** The request bodies for creating and updating a renter, and the
    class-validator rules checked on them before the service runs. */
module RenterDto {
  import opened Common
  import opened Patterns

  datatype CreateRenterDto = CreateRenterDto(
    firstName: string,
    lastName: string,
    phone: string,
    nationalId: string,
    emergencyContact: Field<string>)

  /** `UpdateRenterDto extends CreateRenterDto` without adding anything. */
  type UpdateRenterDto = CreateRenterDto

  /** `@IsNotEmpty()` on a string. */
  predicate IsNotEmpty(s: string) {
    s != ""
  }

  /** `@Length(min, max)`. */
  predicate HasLength(s: string, min: nat, max: nat) {
    min <= |s| <= max
  }

  /** `@IsOptional()` before a rule: `undefined` and `null` skip it. */
  predicate OptionalMatch(p: Pattern, s: Field<string>) {
    s.Given? ==> Match(p, s.value)
  }

  /** Every decorator on the DTO holds. */
  predicate Valid(dto: CreateRenterDto) {
    && IsNotEmpty(dto.firstName)
    && IsNotEmpty(dto.lastName)
    && Match(KenyanPhone, dto.phone)
    && HasLength(dto.nationalId, 7, 9)
    && Match(DigitString, dto.nationalId)
    && OptionalMatch(KenyanPhone, dto.emergencyContact)
  }

  /** What the rules admit, spelled out: non-empty names, a thirteen-character
      `+254[17]` mobile number, a national id of seven to nine digits, and an
      emergency contact that is left out, `null` or a valid mobile number. */
  lemma ValidMeaning(dto: CreateRenterDto)
    ensures Valid(dto) <==>
      && dto.firstName != "" && dto.lastName != ""
      && IsKenyanMobile(dto.phone)
      && 7 <= |dto.nationalId| <= 9
      && (forall i :: 0 <= i < |dto.nationalId| ==> IsDigit(dto.nationalId[i]))
      && (dto.emergencyContact.Given? ==> IsKenyanMobile(dto.emergencyContact.value))
  {
    KenyanPhoneMeaning(dto.phone);
    DigitStringMeaning(dto.nationalId);
    if dto.emergencyContact.Given? {
      KenyanPhoneMeaning(dto.emergencyContact.value);
    }
  }

  /** `@IsOptional()` lets only `undefined` and `null` through: an empty
      emergency contact is still checked against the phone rule and refused. */
  lemma EmptyEmergencyContactRefused(dto: CreateRenterDto)
    requires dto.emergencyContact == Given("")
    ensures !Valid(dto)
  {
  }

  /** A body the validation pipe accepts. */
  lemma SampleDtoValid(dto: CreateRenterDto)
    requires dto == CreateRenterDto("Jane", "Doe", "+254712345678", "12345678", Undefined)
    ensures Valid(dto)
  {
    var p := dto.phone;
    assert p[..4] == "+254" && p[4] == '7';
    assert forall i :: 5 <= i < 13 ==> p[i] in Digits;
    assert forall i :: 0 <= i < 8 ==> dto.nationalId[i] in Digits;
    ValidMeaning(dto);
  }
}
