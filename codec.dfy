/**
 * The codec of the bridge: the status tables in both directions, the
 * creative-type table and the country-code vocabulary with its lookup.
 */
module Codec {
  import opened Wrappers
  import opened Seqs

  /** Storage status code to the string the front end shows. */
  const StatusMapToUi: map<int, string> := map[0 := "unprocessed", 11 := "saved", 13 := "deleted"]

  /** Front-end status string to the storage status code. */
  const StatusMapToDb: map<string, int> := map["unprocessed" := 0, "saved" := 11, "deleted" := 13]

  /** Storage creative-type code to the front end's media type. */
  const CreativeTypeMap: map<int, string> := map[0 := "image", 1 := "video", 2 := "carousel"]

  /**
   * The country vocabulary; a search term stores a position in it, "ALL"
   * being 0. It is written as eight displays of 31 codes each, which the
   * verifier unfolds more readily than one display of 248.
   */
  const CountryList: seq<string> :=
    CountryPart0 + CountryPart1 + CountryPart2 + CountryPart3 +
    CountryPart4 + CountryPart5 + CountryPart6 + CountryPart7

  const CountryPart0: seq<string> := [
    "ALL", "BR", "IN", "GB", "US", "CA", "AR", "AU", "AT", "BE", "CL", "CN", "CO", "HR", "DK", "DO",
    "EG", "FI", "FR", "DE", "GR", "HK", "ID", "IE", "IL", "IT", "JP", "JO", "KW", "LB", "MY"
  ]
  const CountryPart1: seq<string> := [
    "MX", "NL", "NZ", "NG", "NO", "PK", "PA", "PE", "PH", "PL", "RU", "SA", "RS", "SG", "ZA", "KR",
    "ES", "SE", "CH", "TW", "TH", "TR", "AE", "VE", "PT", "LU", "BG", "CZ", "SI", "IS", "SK"
  ]
  const CountryPart2: seq<string> := [
    "LT", "TT", "BD", "LK", "KE", "HU", "MA", "CY", "JM", "EC", "RO", "BO", "GT", "CR", "QA", "SV",
    "HN", "NI", "PY", "UY", "PR", "BA", "PS", "TN", "BH", "VN", "GH", "MU", "UA", "MT", "BS"
  ]
  const CountryPart3: seq<string> := [
    "MV", "OM", "MK", "LV", "EE", "IQ", "DZ", "AL", "NP", "MO", "ME", "SN", "GE", "BN", "UG", "GP",
    "BB", "AZ", "TZ", "LY", "MQ", "CM", "BW", "ET", "KZ", "NA", "MG", "NC", "MD", "FJ", "BY"
  ]
  const CountryPart4: seq<string> := [
    "JE", "GU", "YE", "ZM", "IM", "HT", "KH", "AW", "PF", "AF", "BM", "GY", "AM", "MW", "AG", "RW",
    "GG", "GM", "FO", "LC", "KY", "BJ", "AD", "GD", "VI", "BZ", "VC", "MN", "MZ", "ML", "AO"
  ]
  const CountryPart5: seq<string> := [
    "GF", "UZ", "DJ", "BF", "MC", "TG", "GL", "GA", "GI", "CD", "KG", "PG", "BT", "KN", "SZ", "LS",
    "LA", "LI", "MP", "SR", "SC", "VG", "TC", "DM", "MR", "AX", "SM", "SL", "NE", "CG", "AI"
  ]
  const CountryPart6: seq<string> := [
    "YT", "CV", "GN", "TM", "BI", "TJ", "VU", "SB", "ER", "WS", "AS", "FK", "GQ", "TO", "KM", "PW",
    "FM", "CF", "SO", "MH", "VA", "TD", "KI", "ST", "TV", "NR", "RE", "LR", "ZW", "CI", "MM"
  ]
  const CountryPart7: seq<string> := [
    "AN", "AQ", "BQ", "BV", "IO", "CX", "CC", "CK", "CW", "TF", "GW", "HM", "XK", "MS", "NU", "NF",
    "PN", "BL", "SH", "MF", "PM", "SX", "GS", "SD", "SS", "SJ", "TL", "TK", "UM", "WF", "EH"
  ]

  /**
   * `STATUS_MAP_TO_UI.get(status, "unprocessed")` on a status read from
   * storage: 11 and 13 have names of their own, every other code and a
   * missing status record read as "unprocessed".
   */
  function UiStatus(code: Option<int>): (s: string)
    ensures s in StatusMapToDb
    ensures s == "saved" <==> code == Some(11)
    ensures s == "deleted" <==> code == Some(13)
    ensures s == "unprocessed" <==> code != Some(11) && code != Some(13)
  {
    if code.Some? && code.value in StatusMapToUi then StatusMapToUi[code.value] else "unprocessed"
  }

  /**
   * `STATUS_MAP_TO_DB.get(status, 0)` on the listing path: an unknown status
   * string filters as code 0 instead of being rejected.
   */
  function ListingStatusCode(status: string): (c: int)
    ensures c in StatusMapToUi
    ensures c == 11 <==> status == "saved"
    ensures c == 13 <==> status == "deleted"
    ensures c == 0 <==> status != "saved" && status != "deleted"
  {
    if status in StatusMapToDb then StatusMapToDb[status] else 0
  }

  /**
   * `STATUS_MAP_TO_DB.get(status)` on the write path: `None` for every string
   * other than the three names, and otherwise the code that reads back as
   * that very name.
   */
  function WriteStatusCode(status: string): (c: Option<int>)
    ensures c.Some? <==> status in {"unprocessed", "saved", "deleted"}
    ensures c.Some? ==> c.value in StatusMapToUi && UiStatus(c) == status
  {
    if status in StatusMapToDb then Some(StatusMapToDb[status]) else None
  }

  /** The two status tables are inverse bijections between {0, 11, 13} and the three names. */
  lemma StatusRoundTrip()
    ensures StatusMapToUi.Keys == {0, 11, 13}
    ensures StatusMapToDb.Keys == {"unprocessed", "saved", "deleted"}
    ensures forall c :: c in StatusMapToUi ==> StatusMapToUi[c] in StatusMapToDb && StatusMapToDb[StatusMapToUi[c]] == c
    ensures forall s :: s in StatusMapToDb ==> StatusMapToDb[s] in StatusMapToUi && StatusMapToUi[StatusMapToDb[s]] == s
  {
  }

  /**
   * The media type of a creative row:
   * `CREATIVE_TYPE_MAP.get(t, "image") if t else "image"`.
   */
  function MediaType(creativeType: Option<int>): (t: string)
    ensures t in CreativeTypeMap.Values
    ensures t == "video" <==> creativeType == Some(1)
    ensures t == "carousel" <==> creativeType == Some(2)
    ensures t == "image" <==> creativeType != Some(1) && creativeType != Some(2)
  {
    assert CreativeTypeMap[0] == "image";
    if IntTruthy(creativeType) then
      if creativeType.value in CreativeTypeMap then CreativeTypeMap[creativeType.value] else "image"
    else
      "image"
  }

  /** Upper-casing of one character, restricted to ASCII letters. */
  function UpperChar(c: char): char {
    if 'a' <= c <= 'z' then (c as int - 'a' as int + 'A' as int) as char else c
  }

  predicate IsAsciiLower(c: char) {
    'a' <= c <= 'z'
  }

  /** `str.upper()`, restricted to ASCII letters. */
  function AsciiUpper(s: string): (u: string)
    ensures |u| == |s|
    ensures forall i :: 0 <= i < |s| ==> !IsAsciiLower(u[i])
    ensures forall i :: 0 <= i < |s| && !IsAsciiLower(s[i]) ==> u[i] == s[i]
    ensures forall i :: 0 <= i < |s| && IsAsciiLower(s[i]) ==> u[i] as int == s[i] as int - 'a' as int + 'A' as int
  {
    seq(|s|, i requires 0 <= i < |s| => UpperChar(s[i]))
  }

  /** Upper-casing twice is upper-casing once. */
  lemma AsciiUpperIdempotent(s: string)
    ensures AsciiUpper(AsciiUpper(s)) == AsciiUpper(s)
  {
  }

  /**
   * The position of `code` in a code list, the `ValueError` of a code that
   * is not there turned into position 0.
   */
  function CodeIndex(codes: seq<string>, code: string): (i: nat)
    requires codes != []
    ensures i < |codes|
    ensures code in codes ==> codes[i] == code && forall j :: 0 <= j < i ==> codes[j] != code
    ensures code !in codes ==> i == 0
  {
    match IndexOf(codes, code)
    case Some(k) => k
    case None => 0
  }

  /** `COUNTRY_LIST.index(country.upper())`, an unknown code giving 0 ("ALL"). */
  function CountryIndex(country: string): nat {
    CodeIndex(CountryList, AsciiUpper(country))
  }

  /** The lookup ignores case: a code and its upper-cased form give the same index. */
  lemma CountryIndexIgnoresCase(country: string)
    ensures CountryIndex(AsciiUpper(country)) == CountryIndex(country)
  {
    AsciiUpperIdempotent(country);
  }

  /** Codes that agree up to ASCII case resolve to the same index. */
  lemma CountryIndexCaseInsensitive(a: string, b: string)
    requires |a| == |b| && forall i :: 0 <= i < |a| ==> UpperChar(a[i]) == UpperChar(b[i])
    ensures CountryIndex(a) == CountryIndex(b)
  {
    assert AsciiUpper(a) == AsciiUpper(b);
  }

  /** Index 0 of the vocabulary is "ALL", and "ALL" is found there. */
  lemma CountryIndexOfAll()
    ensures CountryList[0] == "ALL" && CountryIndex("ALL") == 0
  {
    assert AsciiUpper("ALL") == "ALL";
    assert CountryList[0] == CountryPart0[0] == "ALL";
  }

  /** "US" is at index 4 of the vocabulary, and nowhere before. */
  lemma UsPosition()
    ensures CountryList[4] == "US"
    ensures forall j :: 0 <= j < 4 ==> CountryList[j] != "US"
  {
  }

  /** "us" and "US" both name the United States, index 4. */
  lemma CountryIndexOfUs()
    ensures CountryIndex("us") == CountryIndex("US") == 4
  {
    assert CountryIndex("US") == 4 by {
      UsPosition();
      assert AsciiUpper("US") == "US";
    }
    CountryIndexIgnoresCase("us");
    assert AsciiUpper("us") == "US";
  }
}
