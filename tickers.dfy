/** The asset picker of the live tracker: options written "NAME (SYMBOL)",
    from which the page takes the ticker and the chart label. */
module Tickers {
  import opened Wrappers
  import opened Strings

  const AssetOptions: seq<string> := [
    OptionText("NIFTY 50", "^NSEI"),
    OptionText("RELIANCE", "RELIANCE.NS"),
    OptionText("TCS", "TCS.NS"),
    OptionText("HDFC BANK", "HDFCBANK.NS")
  ]

  /** `choice.split("(")[1].replace(")", "")`; indexing [1] needs a "(". */
  function SelectedTicker(choice: string): (symbol: string)
    requires Contains(choice, "(")
    ensures ')' !in symbol
    ensures ')' !in Split(choice, "(")[1] ==> symbol == Split(choice, "(")[1]
  {
    RemoveChar(Split(choice, "(")[1], ')')
  }

  /** `choice.split(" (")[0]`. */
  function ChartLabel(choice: string): (name: string)
    ensures !Contains(name, " (")
    ensures !Contains(choice, " (") ==> name == choice
  {
    Split(choice, " (")[0]
  }

  /** The option text for a name and a symbol. */
  function OptionText(name: string, symbol: string): string {
    name + " (" + symbol + ")"
  }

  lemma NoOccurrenceOfChar(s: string, c: char)
    requires c !in s
    ensures !Contains(s, [c])
  {
    if Contains(s, [c]) {
      var k := IndexOf(s, [c]).value;
      CharAt(s, k, c);
    }
  }

  lemma CharAt(s: string, k: nat, c: char)
    requires OccursAt(s, [c], k)
    ensures s[k] == c && c in s
  {
    assert s[k..k + 1][0] == s[k];
  }

  /** Parsing an option gives back its symbol and its name, provided the
      name has no "(" and the symbol no parenthesis. */
  lemma {:induction false} OptionRoundTrip(name: string, symbol: string)
    requires '(' !in name && '(' !in symbol && ')' !in symbol
    ensures Contains(OptionText(name, symbol), "(")
    ensures SelectedTicker(OptionText(name, symbol)) == symbol
    ensures ChartLabel(OptionText(name, symbol)) == name
  {
    var s := OptionText(name, symbol);
    var n := |name|;
    assert s[..n] == name;
    assert s[n + 2..] == symbol + ")";
    // The first "(" is the one after the name.
    assert s[n + 1..n + 2] == "(";
    forall j | 0 <= j < n + 1
      ensures !OccursAt(s, "(", j)
    {
      if j < n {
        assert s[j] == name[j];
      }
      assert s[j..j + 1][0] == s[j];
    }
    FirstOccurrence(s, "(", n + 1);
    NoOccurrenceOfChar(symbol + ")", '(');
    assert Split(s, "(") == [s[..n + 1]] + Split(symbol + ")", "(");
    assert Split(s, "(")[1] == symbol + ")";
    assert (symbol + ")")[..|symbol|] == symbol;
    // The first " (" is the one after the name.
    assert s[n..n + 2] == " (";
    forall j | 0 <= j < n
      ensures !OccursAt(s, " (", j)
    {
      if j + 1 < n {
        assert s[j + 1] == name[j + 1];
      }
      assert s[j..j + 2][1] == s[j + 1];
    }
    FirstOccurrence(s, " (", n);
  }

  /** The four options of the live tracker parse to their tickers and names. */
  lemma NiftyOptionParses()
    ensures Contains(AssetOptions[0], "(")
    ensures SelectedTicker(AssetOptions[0]) == "^NSEI" && ChartLabel(AssetOptions[0]) == "NIFTY 50"
  {
    OptionRoundTrip("NIFTY 50", "^NSEI");
  }

  lemma RelianceOptionParses()
    ensures Contains(AssetOptions[1], "(")
    ensures SelectedTicker(AssetOptions[1]) == "RELIANCE.NS" && ChartLabel(AssetOptions[1]) == "RELIANCE"
  {
    OptionRoundTrip("RELIANCE", "RELIANCE.NS");
  }

  lemma TcsOptionParses()
    ensures Contains(AssetOptions[2], "(")
    ensures SelectedTicker(AssetOptions[2]) == "TCS.NS" && ChartLabel(AssetOptions[2]) == "TCS"
  {
    OptionRoundTrip("TCS", "TCS.NS");
  }

  lemma HdfcBankOptionParses()
    ensures Contains(AssetOptions[3], "(")
    ensures SelectedTicker(AssetOptions[3]) == "HDFCBANK.NS" && ChartLabel(AssetOptions[3]) == "HDFC BANK"
  {
    OptionRoundTrip("HDFC BANK", "HDFCBANK.NS");
  }
}
