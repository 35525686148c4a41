/**
  Mobile-number validation, in its three variants: the abstract SMS engine's format check, the
  Twilio helper that also asks the carrier-lookup service, and the Twilio engine's method built on
  the abstract one. The lookup service is an oracle from an E.164 number to the carrier type it
  reports; every number sent to it is recorded, so that "no lookup was made" can be stated.
*/
module MobileValidation {
  import opened Wrappers
  import opened Text

  /** A value handed to validate_mobile: text still to be parsed, or an already parsed number. */
  datatype PhoneInput = Raw(text: string) | Parsed(e164: string)

  /** What the abstract engine's validate_mobile returns: True when validation is switched off,
      False when the text does not parse, otherwise the parsed number. */
  datatype Verdict = AllowAll | Unparseable | Number(e164: string)

  /** Python truthiness of a verdict: a parsed number object is truthy. */
  predicate Truthy(v: Verdict) {
    !v.Unparseable?
  }

  /** The number a value stands for, parsing text with the default region 'US'. */
  function ParseUS(lib: PhoneLib, value: PhoneInput): (r: Option<string>)
    ensures value.Parsed? ==> r == Some(value.e164)
    ensures value.Raw? ==> r == lib.parse(value.text, Some("US"))
  {
    match value
    case Parsed(n) => Some(n)
    case Raw(t) => lib.parse(t, Some("US"))
  }

  /** SMSEngineAbtract.validate_mobile. */
  function AbstractValidate(enabled: bool, lib: PhoneLib, value: PhoneInput): (r: Verdict)
    ensures !enabled ==> r == AllowAll
    ensures enabled ==> (r == Unparseable <==> ParseUS(lib, value) == None)
    ensures enabled && ParseUS(lib, value).Some? ==> r == Number(ParseUS(lib, value).value)
  {
    if !enabled then AllowAll
    else match value {
      case Parsed(n) => Number(n)
      case Raw(t) =>
        match lib.parse(t, Some("US")) {
          case None => Unparseable
          case Some(n) => Number(n)
        }
    }
  }

  /** The abstract check accepts exactly the inputs that either need no validation or parse. */
  lemma AbstractValidateTruthy(enabled: bool, lib: PhoneLib, value: PhoneInput)
    ensures Truthy(AbstractValidate(enabled, lib, value)) <==> !enabled || ParseUS(lib, value).Some?
  {
  }

  /** The verdict of a carrier-lookup validation and the numbers sent to the lookup service. */
  datatype MobileCheck = MobileCheck(valid: bool, lookups: seq<string>)

  const CarrierTypesAccepted: set<string> := {"voip", "mobile"}

  /** backends/twilio/utils.py validate_mobile. */
  function ValidateMobile(enabled: bool, lib: PhoneLib, carrier: string -> string, value: PhoneInput): (r: MobileCheck)
    ensures !enabled ==> r == MobileCheck(true, [])
    ensures enabled && ParseUS(lib, value) == None ==> r == MobileCheck(false, [])
    ensures enabled && ParseUS(lib, value).Some? ==>
      var n := ParseUS(lib, value).value;
      r.lookups == [n] && (r.valid <==> carrier(n) == "voip" || carrier(n) == "mobile")
  {
    if !enabled then MobileCheck(true, [])
    else
      var parsed := match value {
        case Parsed(n) => Some(n)
        case Raw(t) => lib.parse(t, Some("US"))
      };
      match parsed {
        case None => MobileCheck(false, [])
        case Some(n) => MobileCheck(carrier(n) in CarrierTypesAccepted, [n])
      }
  }

  /** engines/twilio.py Engine.validate_mobile: switched off means valid; otherwise the abstract
      engine's check decides parsing, and a parsed number goes to the lookup service. */
  function EngineValidateMobile(enabled: bool, lib: PhoneLib, carrier: string -> string, value: PhoneInput): (r: MobileCheck)
    ensures r.valid ==> !enabled || ParseUS(lib, value).Some?
    ensures |r.lookups| <= 1
  {
    if !enabled then MobileCheck(true, [])
    else
      var v := AbstractValidate(enabled, lib, value);
      if !Truthy(v) then MobileCheck(false, [])
      else if v.Number? then MobileCheck(carrier(v.e164) in CarrierTypesAccepted, [v.e164])
      else MobileCheck(true, [])
  }

  /** The engine method and the helper function give the same verdict after the same lookups. */
  lemma EngineAgreesWithHelper(enabled: bool, lib: PhoneLib, carrier: string -> string, value: PhoneInput)
    ensures EngineValidateMobile(enabled, lib, carrier, value) == ValidateMobile(enabled, lib, carrier, value)
  {
  }
}
