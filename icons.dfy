/**
 * src/lib/iconResolver.js: the icon URL of an Upbit symbol. An override URL
 * for the upper-cased symbol wins; otherwise an alias replaces the symbol;
 * otherwise the lower-cased symbol goes after the coinicons prefix.
 */
module IconResolver {
  import opened Wrappers
  import opened JsString

  const Prefix := "https://coinicons-api.vercel.app/api/icon/"

  /** Absolute URLs by upper-cased symbol; the shipped table is empty. */
  const Overrides: map<string, string> := map[]

  /** Better-matching coinicons symbols by upper-cased Upbit symbol. */
  const Aliases: map<string, string> := map[
    "MATIC" := "pol", "XEC" := "xec", "BSV" := "bsv", "BTG" := "btg", "BTT" := "btt",
    "NEO" := "neo", "QTUM" := "qtum", "IOTA" := "iota", "NANO" := "xno", "KAS" := "kas",
    "SUI" := "sui", "APT" := "apt", "ARB" := "arb", "OP" := "op", "STX" := "stx",
    "SEI" := "sei", "INJ" := "inj", "RUNE" := "rune", "PEPE" := "pepe", "WIF" := "wif",
    "TON" := "ton"
  ]

  /** `table[key]` read for truthiness: a missing entry and an empty string both fall through. */
  function Lookup(table: map<string, string>, key: string): (r: Option<string>)
    ensures r.Some? <==> key in table && table[key] != ""
    ensures r.Some? ==> r.value == table[key]
  {
    if key in table && table[key] != "" then Some(table[key]) else None
  }

  /** `resolveIconUrl` over given tables. */
  function ResolveWith(overrides: map<string, string>, aliases: map<string, string>, symbol: Option<string>): (r: Option<string>)
    ensures r.None? <==> !Truthy(symbol)
    ensures Truthy(symbol) && Lookup(overrides, ToUpper(symbol.value)).Some? ==> r == Lookup(overrides, ToUpper(symbol.value))
    ensures Truthy(symbol) && Lookup(overrides, ToUpper(symbol.value)).None? && Lookup(aliases, ToUpper(symbol.value)).Some? ==>
      r == Some(Prefix + aliases[ToUpper(symbol.value)])
    ensures Truthy(symbol) && Lookup(overrides, ToUpper(symbol.value)).None? && Lookup(aliases, ToUpper(symbol.value)).None? ==>
      r == Some(Prefix + ToLower(symbol.value))
  {
    if !Truthy(symbol) then None
    else
      var upper := ToUpper(symbol.value);
      match Lookup(overrides, upper)
      case Some(url) => Some(url)
      case None =>
        var alias := match Lookup(aliases, upper) case Some(a) => a case None => ToLower(upper);
        ToLowerOfToUpper(symbol.value);
        Some(Prefix + alias)
  }

  /** `resolveIconUrl(symbol)` with the shipped tables; `None` stands for `null`/`undefined`. */
  function ResolveIconUrl(symbol: Option<string>): (r: Option<string>)
    ensures r.None? <==> !Truthy(symbol)
  {
    ResolveWith(Overrides, Aliases, symbol)
  }

  /** Symbols that differ only in letter case resolve to the same URL, whatever the tables. */
  lemma CaseInsensitive(overrides: map<string, string>, aliases: map<string, string>, a: string, b: string)
    requires a != "" && b != "" && ToUpper(a) == ToUpper(b)
    ensures ResolveWith(overrides, aliases, Some(a)) == ResolveWith(overrides, aliases, Some(b))
  {
    ToLowerOfToUpper(a);
    ToLowerOfToUpper(b);
  }

  /** An override entry beats an alias for the same symbol. */
  lemma OverrideWins(overrides: map<string, string>, aliases: map<string, string>, symbol: string)
    requires symbol != "" && ToUpper(symbol) in overrides && overrides[ToUpper(symbol)] != ""
    ensures ResolveWith(overrides, aliases, Some(symbol)) == Some(overrides[ToUpper(symbol)])
  {
  }

  /** An empty or missing symbol gives `null`. */
  lemma EmptySymbol()
    ensures ResolveIconUrl(None) == None && ResolveIconUrl(Some("")) == None
  {
  }

  /** An alias applies whatever the case of the symbol. */
  lemma AliasExamples()
    ensures ResolveIconUrl(Some("NANO")) == Some(Prefix + "xno")
    ensures ResolveIconUrl(Some("nano")) == Some(Prefix + "xno")
  {
    assert ToUpper("nano") == "NANO";
    assert ToUpper("NANO") == "NANO";
    assert Lookup(Aliases, "NANO") == Some("xno");
  }

  /** A renamed coin resolves to its new coinicons symbol. */
  lemma RenamedCoinExample()
    ensures ResolveIconUrl(Some("MATIC")) == Some(Prefix + "pol")
  {
    assert ToUpper("MATIC") == "MATIC";
    assert Lookup(Aliases, "MATIC") == Some("pol");
  }

  /** A symbol with no override and no alias gets the lower-cased symbol. */
  lemma DefaultRuleExample()
    ensures ResolveIconUrl(Some("Btc")) == Some(Prefix + "btc")
  {
    assert ToUpper("Btc") == "BTC";
    assert ToLower("Btc") == "btc";
  }
}
