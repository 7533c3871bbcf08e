/** Tariff lookup (LKR per kWh) by tariff code or by a keyword in a region name. */
module Tariff {
  import opened Wrappers
  import opened Text

  /** The table's exact tariff codes. Its "default" entry can never be hit by
      an exact match, because the key is upper-cased first. */
  function CodeTariff(key: string): Option<real> {
    if key == "LK:RES_LOW" then Some(52.0)
    else if key == "LK:RES_MED" then Some(65.0)
    else if key == "LK:RES_HIGH" then Some(82.0)
    else if key == "LK:SME" then Some(60.0)
    else if key == "LK:COMMERCIAL" then Some(75.0)
    else None
  }

  const Default: real := 60.0

  /** The values the table holds. */
  predicate IsTableValue(r: real) {
    r == 52.0 || r == 65.0 || r == 82.0 || r == 60.0 || r == 75.0
  }

  /** The lookup key `code.strip().upper()`. */
  function Key(code: string): string {
    Upper(Strip(code))
  }

  /** `get_tariff(region_or_code)`: None or "" gives the default; an exact code
      wins; then the keyword buckets COMM, then SME/SHOP/SMALL, then RES/HOME/HOUSE. */
  function GetTariff(code: Option<string>): (r: real)
    ensures IsTableValue(r) && r > 0.0
    ensures (code.None? || code == Some("")) ==> r == 60.0
    ensures code.Some? && code.value != "" && CodeTariff(Key(code.value)).Some? ==> r == CodeTariff(Key(code.value)).value
  {
    if code.None? || code.value == "" then Default else KeyTariff(Key(code.value))
  }

  /** The tariff for a normalised, non-empty key. */
  function KeyTariff(key: string): (r: real)
    ensures IsTableValue(r)
    ensures CodeTariff(key).Some? ==> r == CodeTariff(key).value
  {
    match CodeTariff(key)
    case Some(t) => t
    case None =>
      if Contains(key, "COMM") then 75.0
      else if Contains(key, "SME") || Contains(key, "SHOP") || Contains(key, "SMALL") then 60.0
      else if Contains(key, "RES") || Contains(key, "HOME") || Contains(key, "HOUSE") then 65.0
      else Default
  }

  /** Two inputs with the same key get the same tariff. */
  lemma DependsOnlyOnKey(a: string, b: string)
    requires a != [] && b != [] && Key(a) == Key(b)
    ensures GetTariff(Some(a)) == GetTariff(Some(b))
  {
  }

  /** The keyword buckets in priority order, for keys that are not codes:
      COMM, then SME/SHOP/SMALL, then RES/HOME/HOUSE, then the default. */
  lemma KeywordPriority(code: string)
    requires code != [] && CodeTariff(Key(code)).None?
    ensures var k := Key(code);
      var comm := Contains(k, "COMM");
      var sme := Contains(k, "SME") || Contains(k, "SHOP") || Contains(k, "SMALL");
      var res := Contains(k, "RES") || Contains(k, "HOME") || Contains(k, "HOUSE");
      && (comm ==> GetTariff(Some(code)) == 75.0)
      && (!comm && sme ==> GetTariff(Some(code)) == 60.0)
      && (!comm && !sme && res ==> GetTariff(Some(code)) == 65.0)
      && (!comm && !sme && !res ==> GetTariff(Some(code)) == Default)
  {
  }

  /** An exact code beats the keyword it contains: "LK:RES_LOW" is 52, not the RES bucket's 65. */
  lemma ExactCodeBeatsKeyword(code: string)
    requires code == "LK:RES_LOW"
    ensures Contains(Key(code), "RES")
    ensures GetTariff(Some(code)) == 52.0
  {
    assert StripLeft(code) == code && StripRight(code) == code;
    assert Upper(code) == code;
    assert Key(code) == code;
    assert code[3..6] == "RES";
    ContainsAt(code, "RES", 3);
  }

  /** Surrounding whitespace and the case of the letters do not matter: any
      casing of any of the five codes, padded with whitespace, gets that
      code's tariff. */
  lemma CodeIsNormalised(code: string, s: string, pre: string, post: string)
    requires CodeTariff(code).Some? && Upper(s) == code
    requires AllSpace(pre) && AllSpace(post)
    ensures GetTariff(Some(pre + s + post)) == CodeTariff(code).value
  {
    assert code[0] == 'L' && code[|code| - 1] in {'W', 'D', 'H', 'E', 'L'};
    assert UpperChar(s[0]) == code[0] && UpperChar(s[|s| - 1]) == code[|code| - 1];
    StripPadded(pre, s, post);
  }

  /** `" lk:res_low "` is "LK:RES_LOW", 52. */
  lemma PaddedLowerCase(code: string)
    requires code == " lk:res_low "
    ensures GetTariff(Some(code)) == 52.0
  {
    UpperResLow("lk:res_low");
    assert code == " " + "lk:res_low" + " ";
    CodeIsNormalised("LK:RES_LOW", "lk:res_low", " ", " ");
  }

  lemma UpperResLow(s: string)
    requires s == "lk:res_low"
    ensures Upper(s) == "LK:RES_LOW"
  {
    var u := Upper(s);
    assert |u| == 10;
    assert u[0] == 'L' && u[1] == 'K' && u[2] == ':' && u[3] == 'R' && u[4] == 'E';
    assert u[5] == 'S' && u[6] == '_' && u[7] == 'L' && u[8] == 'O' && u[9] == 'W';
  }
}
