/** The bank-list helpers of `hooks/useBanks.ts`: the short display name, the
    commercial/microfinance classification, the logo lookup with its SVG-before-PNG
    precedence, the transform of the processor's bank records with its defaults, and
    the `fetchBanks` state updates. */
module Banks {
  import opened Js
  import opened Strings

  // ----- Short names -------------------------------------------------------------

  /** The fixed short names of the well-known banks. */
  const ShortNames: map<string, string> := map[
      "Access Bank" := "Access", "Guaranty Trust Bank" := "GTBank", "First Bank of Nigeria" := "FirstBank", "First City Monument Bank" := "FCMB",
      "United Bank for Africa" := "UBA", "Zenith Bank" := "Zenith", "Ecobank Nigeria" := "Ecobank", "Fidelity Bank" := "Fidelity",
      "Union Bank of Nigeria" := "Union Bank", "Wema Bank" := "Wema", "Sterling Bank" := "Sterling", "Stanbic IBTC Bank" := "Stanbic",
      "Standard Chartered Bank" := "StanChart", "Heritage Bank" := "Heritage", "Keystone Bank" := "Keystone", "Polaris Bank" := "Polaris",
      "Unity Bank" := "Unity", "Jaiz Bank" := "Jaiz", "Titan Trust Bank" := "Titan", "Providus Bank" := "Providus",
      "SunTrust Bank" := "SunTrust"]

  /** `getShortName`: the table entry, else the text before the first space (all of the
      name when it has none). */
  function ShortName(name: string): (r: string)
    ensures name in ShortNames ==> r == ShortNames[name]
    ensures name !in ShortNames ==>
      && r <= name
      && (forall i :: 0 <= i < |r| ==> r[i] != ' ')
      && (|r| < |name| ==> name[|r|] == ' ')
  {
    if name in ShortNames then ShortNames[name]
    else
      SplitFirstPiece(name, ' ');
      Split(name, " ")[0]
  }

  /** An unlisted name without a space is its own short name. */
  lemma ShortNameOfOneWord(name: string)
    requires name !in ShortNames && forall i :: 0 <= i < |name| ==> name[i] != ' '
    ensures ShortName(name) == name
  {
  }

  /** An unlisted name of several words is shortened to its first word. */
  lemma ShortNameOfWords(first: string, rest: string)
    requires (forall i :: 0 <= i < |first| ==> first[i] != ' ') && first + " " + rest !in ShortNames
    ensures ShortName(first + " " + rest) == first
  {
    SplitAfterPrefix(first, rest, ' ');
  }

  // ----- Categories --------------------------------------------------------------

  datatype Category = Commercial | Microfinance

  /** The names whose presence marks a microfinance bank. */
  const MicrofinanceNames: seq<string> := [
      "OPay", "Kuda", "Paga", "Carbon",
      "FairMoney", "Branch", "Quickteller", "VFD Microfinance Bank",
      "LAPO Microfinance Bank", "Accion Microfinance Bank", "AB Microfinance Bank", "Baobab Microfinance Bank",
      "Finca Microfinance Bank", "Grooming Microfinance Bank", "Mutual Trust Microfinance Bank", "Rephidim Microfinance Bank",
      "Shepherd Trust Microfinance Bank", "Empire Trust Microfinance Bank", "Fidfund Microfinance Bank", "Fina Trust Microfinance Bank",
      "Peace Microfinance Bank", "Infinity Microfinance Bank", "Seed Capital Microfinance Bank", "New Dawn Microfinance Bank",
      "Credit Afrique Microfinance Bank"]

  /** `names.some(n => lowerName.includes(n.toLowerCase()))`. */
  predicate MatchesAny(lowerName: string, names: seq<string>): (r: bool)
    ensures r <==> exists i :: 0 <= i < |names| && Contains(lowerName, Lower(names[i]))
    decreases |names|
  {
    if names == [] then false
    else if Contains(lowerName, Lower(names[0])) then true
    else
      var r' := MatchesAny(lowerName, names[1..]);
      assert forall i :: 1 <= i < |names| ==> names[i] == names[1..][i - 1];
      r'
  }

  /** `determineCategory`: microfinance exactly when some listed name occurs in the bank
      name, both lower-cased. */
  function CategoryOf(name: string): (r: Category)
    ensures r == Microfinance <==>
      exists i :: 0 <= i < |MicrofinanceNames| && Contains(Lower(name), Lower(MicrofinanceNames[i]))
  {
    if MatchesAny(Lower(name), MicrofinanceNames) then Microfinance else Commercial
  }

  /** The classification does not depend on letter case. */
  lemma CategoryIgnoresCase(name: string)
    ensures CategoryOf(Lower(name)) == CategoryOf(name)
    ensures CategoryOf(Upper(name)) == CategoryOf(name)
  {
    LowerIdempotent(name);
    LowerUpper(name);
  }

  /** A listed name anywhere in a longer name classifies it: "Kuda Microfinance Bank" is
      microfinance through "Kuda". */
  lemma KudaIsMicrofinance()
    ensures CategoryOf("Kuda Microfinance Bank") == Microfinance
  {
    var lowered := Lower("Kuda Microfinance Bank");
    assert MicrofinanceNames[1] == "Kuda";
    assert Lower("Kuda") == "kuda";
    assert lowered[..4] == "kuda";
    assert Contains(lowered, "kuda");
  }

  // ----- Icons -------------------------------------------------------------------

  /** The PNG assets, by bank code. */
  const PngIcons: map<string, string> := map[
      "035" := "wema_bank.png", "057" := "zenith_bank.png", "566" := "vfd_bank.png", "51355" := "waya_bank.png",
      "050020" := "vale_bank.png", "215" := "unity_bank.png", "033" := "united_bank.png", "51322" := "uhuru_bank.png",
      "102" := "titan_bank.png", "302" := "taj_bank.png", "100" := "suntrust_bank.png", "51310" := "sparkle_bank.png",
      "125" := "rubies_bank.png", "50761" := "rehoboth_bank.png", "90067" := "refuge_bank.png", "51293" := "quick_fund_bank.png",
      "050023" := "prosperis_bank.png", "268" := "platinum_bank.png", "51146" := "personal_trust_bank.png", "311" := "parkway_readycash_bank.png",
      "51142" := "navy_bank.png", "090679" := "ndcc_bank.png", "120003" := "mtn_mono_bank.png", "090171" := "main_street_bank.png",
      "303" := "lotus_bank.png", "031" := "living_trust_bank.png", "50549" := "links_bank.png", "50200" := "kredi_bank.png",
      "100025" := "kongapay_bank.png", "899" := "kolomoni_bank.png", "301" := "jaiz_bank.png", "415" := "imperial_bank.png",
      "51244" := "ibile_bank.png", "50383" := "hasal_bank.png", "562" := "greenwich_bank.png", "812" := "gateway_bank.png",
      "51314" := "firmus_bank.png", "50298" := "fedeth_bank.png", "51318" := "fair_money_bank.png", "090678" := "excel_bank.png",
      "50263" := "ekimogun_bank.png", "51334" := "davenport_bank.png", "FC40128" := "country_bank.png", "50910" := "consumer_bank.png",
      "070027" := "citycode_bank.png", "50171" := "chanelle_bank.png", "50823" := "cemcs_bank.png", "865" := "cashconnect_bank.png",
      "50931" := "bowen_bank.png", "51100" := "bell_bank.png", "MFB50992" := "baobab_bank.png", "51351" := "awacash_bank.png",
      "MFB50094" := "astrapolaris_bank.png", "90077" := "ag_bank.png", "602" := "accion_bank.png", "120001" := "9mobile_bank.png"]

  /** The SVG assets, by bank code. */
  const SvgIcons: map<string, string> := map[
      "032" := "union_bank.svg", "076" := "polaris_bank.svg", "51269" := "tangerine_bank.svg", "232" := "sterling_bank.svg",
      "51253" := "stallas_bank.svg", "068" := "standard_chartered_bank.svg", "221" := "stanbic_bank.svg", "106" := "signature_bank.svg",
      "51113" := "safe_haven_bank.svg", "502" := "rand_marchant_bank.svg", "101" := "providus_bank.svg", "105" := "premium_trust_bank.svg",
      "00716" := "pocket_bank.svg", "51226" := "pecan_trust_bank.svg", "104" := "parrallex_bank.svg", "999991" := "palmpay.svg",
      "100002" := "paga_bank.svg", "107" := "optimus_bank.svg", "999992" := "opay_bank.svg", "50515" := "moniepoint_bank.svg",
      "50491" := "loma_bank.svg", "50211" := "kuda_bank.svg", "082" := "keystone_bank.svg", "120002" := "hope_bank.svg",
      "058" := "gt_bank.svg", "100022" := "go_bank.svg", "090574" := "goldman_bank.svg", "00103" := "globus_bank.svg",
      "501" := "fsdh_bank.svg", "413" := "first_trust_bank.svg", "011" := "first_bank.svg", "214" := "fcmb_bank.svg",
      "50126" := "eyowo_bank.svg", "050" := "eco_bank.svg", "098" := "ekondo_bank.svg", "50162" := "dot_bank.svg",
      "090560" := "crust_bank.svg", "40119" := "credit_direct_bank.svg", "559" := "coronation_bank.svg", "50204" := "corestep_bank.svg",
      "023" := "citi_bank.svg", "51353" := "cashbridge_bank.svg", "565" := "carbon_bank.svg", "50645" := "buypower_bank.svg",
      "FC40163" := "branch_bank.svg", "51229" := "baines_credit_bank.svg", "401" := "aso_savings_bank.svg", "035A" := "alat_wema_bank.svg",
      "51336" := "aku_bank.svg", "120004" := "airtel_smartcash_bank.svg", "063" := "access_diamond_bank.svg", "044" := "access_bank.svg",
      "404" := "abbey_bank.svg"]

  /** `{ logo?, logoSvg? }`. */
  datatype Icon = Icon(logo: Option<string>, logoSvg: Option<string>)

  /** `getBankIcon`: nothing for an empty code, else the SVG asset if there is one, else
      the PNG asset if there is one, else nothing. */
  function BankIcon(code: string): (r: Icon)
    ensures !(r.logo.Some? && r.logoSvg.Some?)
    ensures code == "" ==> r == Icon(None, None)
    ensures r.logoSvg.Some? <==> code != "" && code in SvgIcons
    ensures r.logoSvg.Some? ==> r.logoSvg.value == SvgIcons[code]
    ensures r.logo.Some? <==> code != "" && code !in SvgIcons && code in PngIcons
    ensures r.logo.Some? ==> r.logo.value == PngIcons[code]
  {
    if code == "" then Icon(None, None)
    else if code in SvgIcons then Icon(None, Some(SvgIcons[code]))
    else if code in PngIcons then Icon(Some(PngIcons[code]), None)
    else Icon(None, None)
  }

  // ----- The bank transform ------------------------------------------------------

  /** A bank record as the processor sends it; absent fields are `None`. */
  datatype RawBank = RawBank(
    id: Option<int>,
    name: string,
    code: string,
    country: Option<string>,
    currency: Option<string>,
    bankType: Option<string>,
    active: Option<bool>)

  datatype Bank = Bank(
    id: int,
    name: string,
    code: string,
    country: string,
    currency: string,
    bankType: string,
    isActive: bool,
    shortName: string,
    category: Category,
    icon: Icon)

  /** The transform of the record at position `index`. */
  function ToBank(raw: RawBank, index: nat): (b: Bank)
    ensures b.id != 0
    ensures raw.id.Some? && raw.id.value != 0 ==> b.id == raw.id.value
    ensures raw.id.None? || raw.id.value == 0 ==> b.id == index + 1
    ensures b.name == raw.name && b.code == raw.code
    ensures b.country == (if Truthy(raw.country) then raw.country.value else "Nigeria")
    ensures b.currency == (if Truthy(raw.currency) then raw.currency.value else "NGN")
    ensures b.bankType == (if Truthy(raw.bankType) then raw.bankType.value else "nuban")
    ensures b.country != "" && b.currency != "" && b.bankType != ""
    ensures !b.isActive <==> raw.active == Some(false)
  {
    Bank(if raw.id.Some? && raw.id.value != 0 then raw.id.value else index + 1,
         raw.name, raw.code,
         Or(raw.country, "Nigeria"), Or(raw.currency, "NGN"), Or(raw.bankType, "nuban"),
         raw.active != Some(false),
         ShortName(raw.name), CategoryOf(raw.name), BankIcon(raw.code))
  }

  /** `data.data.map(...)`: one bank per record, in the same order. */
  function ToBanks(raws: seq<RawBank>): (banks: seq<Bank>)
    ensures |banks| == |raws|
    ensures forall i :: 0 <= i < |raws| ==> banks[i] == ToBank(raws[i], i)
  {
    seq(|raws|, i requires 0 <= i < |raws| => ToBank(raws[i], i))
  }

  /** A transformed list keeps names and codes in order, and gives every record without an
      id a distinct positional id. */
  lemma ToBanksKeepsOrder(raws: seq<RawBank>, i: nat, j: nat)
    requires i < j < |raws| && (raws[i].id.None? || raws[i].id == Some(0)) && (raws[j].id.None? || raws[j].id == Some(0))
    ensures ToBanks(raws)[i].id < ToBanks(raws)[j].id
    ensures ToBanks(raws)[i].code == raws[i].code && ToBanks(raws)[j].code == raws[j].code
  {
  }

  // ----- The hook ----------------------------------------------------------------

  /** What the bank-list request produced: the request or its JSON threw (with what it
      threw), or a parsed body arrived with the HTTP `ok` flag. */
  datatype BankResponse =
    | BankThrows(failure: Failure)
    | BankReply(ok: bool, status: bool, bodyMessage: Option<string>, data: seq<RawBank>)

  const DefaultBanksError: string := "Failed to fetch banks"
  const MissingKeyError: string := "Paystack secret key not configured"

  datatype BanksView = BanksView(banks: seq<Bank>, isLoading: bool, error: Option<string>)

  /** One run of `fetchBanks`; `secretKey` is the configured key. */
  function FetchBanksResult(v: BanksView, secretKey: Option<string>, response: BankResponse): BanksView {
    if !Truthy(secretKey) then v.(isLoading := false, error := Some(MissingKeyError))
    else match response
      case BankThrows(failure) => v.(isLoading := false, error := Some(ErrorText(failure, DefaultBanksError)))
      case BankReply(ok, status, message, data) =>
        if !ok || !status then v.(isLoading := false, error := Some(Or(message, DefaultBanksError)))
        else BanksView(ToBanks(data), false, None)
  }

  /** Every failure sets an error, stops loading and keeps the banks already shown; a
      missing key is reported before any response is looked at, and a rejected body reports
      its own message or the default one. */
  lemma FetchBanksFailure(v: BanksView, secretKey: Option<string>, response: BankResponse)
    requires !Truthy(secretKey) || response.BankThrows? || !response.ok || !response.status
    ensures var v1 := FetchBanksResult(v, secretKey, response);
      && v1.banks == v.banks && !v1.isLoading && v1.error.Some?
      && (!Truthy(secretKey) ==> v1.error == Some(MissingKeyError))
      && (Truthy(secretKey) && response.BankReply? ==>
            v1.error == Some(if Truthy(response.bodyMessage) then response.bodyMessage.value else DefaultBanksError))
      && (Truthy(secretKey) && response.BankThrows? ==>
            v1.error == Some(if response.failure.isErrorInstance then response.failure.message else DefaultBanksError))
  {
  }

  /** A good reply replaces the banks by the transformed list and clears the error. */
  lemma FetchBanksSuccess(v: BanksView, secretKey: Option<string>, response: BankResponse)
    requires Truthy(secretKey) && response.BankReply? && response.ok && response.status
    ensures var v1 := FetchBanksResult(v, secretKey, response);
      && v1.banks == ToBanks(response.data) && v1.error.None? && !v1.isLoading
      && |v1.banks| == |response.data|
      && forall i :: 0 <= i < |response.data| ==> v1.banks[i] == ToBank(response.data[i], i)
  {
  }

  class BanksHook {
    var banks: seq<Bank>
    var isLoading: bool
    var error: Option<string>

    function View(): BanksView
      reads this
    {
      BanksView(banks, isLoading, error)
    }

    constructor ()
      ensures View() == BanksView([], true, None)
    {
      banks, isLoading, error := [], true, None;
    }

    method FetchBanks(secretKey: Option<string>, response: BankResponse)
      modifies this
      ensures View() == FetchBanksResult(old(View()), secretKey, response)
    {
      isLoading := true;
      error := None;
      if !Truthy(secretKey) {
        error := Some(MissingKeyError);
        isLoading := false;
        return;
      }
      match response {
        case BankThrows(failure) =>
          error := Some(ErrorText(failure, DefaultBanksError));
        case BankReply(ok, status, message, data) =>
          if !ok || !status {
            error := Some(Or(message, DefaultBanksError));
          } else {
            banks := ToBanks(data);
          }
      }
      isLoading := false;
    }
  }
}
