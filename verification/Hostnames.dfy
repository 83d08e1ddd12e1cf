/** DNS hostnames as the agent accepts them, and the Traefik rules printed from them. */
module Hostnames {
  import opened Common
  import opened Names

  /** strings.Split with a one-character separator. */
  function Split(s: string, sep: char): (parts: seq<string>)
    ensures parts != []
  {
    if s == [] then [""]
    else
      var rest := Split(s[1..], sep);
      if s[0] == sep then [""] + rest else [[s[0]] + rest[0]] + rest[1..]
  }

  function Join(parts: seq<string>, sep: string): string {
    if parts == [] then ""
    else if |parts| == 1 then parts[0]
    else parts[0] + sep + Join(parts[1..], sep)
  }

  /** Splitting loses nothing, and no part holds the separator. */
  lemma {:induction false} JoinSplit(s: string, sep: char)
    ensures Join(Split(s, sep), [sep]) == s
    ensures forall i | 0 <= i < |Split(s, sep)| :: sep !in Split(s, sep)[i]
  {
    if s != [] {
      JoinSplit(s[1..], sep);
      var rest := Split(s[1..], sep);
      if s[0] == sep {
        assert ([""] + rest)[1..] == rest;
        assert Join([""] + rest, [sep]) == "" + [sep] + Join(rest, [sep]);
      } else {
        var parts := [[s[0]] + rest[0]] + rest[1..];
        assert parts[1..] == rest[1..];
        if |rest| > 1 {
          assert Join(parts, [sep]) == [s[0]] + rest[0] + [sep] + Join(rest[1..], [sep]);
          assert Join(parts, [sep]) == [s[0]] + (rest[0] + [sep] + Join(rest[1..], [sep]));
        } else {
          assert rest == [rest[0]];
        }
      }
      assert s == [s[0]] + s[1..];
    }
  }

  predicate IsAlphanumeric(c: char) {
    IsLowerLetter(c) || IsDigit(c)
  }

  /** hostLabelRE. */
  predicate IsLabel(s: string) {
    && 1 <= |s| <= 63
    && IsAlphanumeric(s[0]) && IsAlphanumeric(s[|s| - 1])
    && forall i | 0 <= i < |s| :: IsAlphanumeric(s[i]) || s[i] == '-'
  }

  predicate AreLabels(parts: seq<string>) {
    forall i | 0 <= i < |parts| :: IsLabel(parts[i])
  }

  /** A decimal field of an IPv4 address: at most 255, without leading zeros. */
  predicate IsOctet(s: string) {
    && 1 <= |s| <= 3
    && (forall i | 0 <= i < |s| :: IsDigit(s[i]))
    && (|s| > 1 ==> s[0] != '0')
    && (|s| == 3 ==> s[0] < '2' || (s[0] == '2' && (s[1] < '5' || (s[1] == '5' && s[2] <= '5'))))
  }

  function DecimalDigit(d: nat): char
    requires d < 10
  {
    '0' + d as char
  }

  /** A number in decimal. */
  function Decimal(n: nat): string {
    if n < 10 then [DecimalDigit(n)] else Decimal(n / 10) + [DecimalDigit(n % 10)]
  }

  lemma DigitOf(c: char) returns (d: nat)
    requires IsDigit(c)
    ensures d < 10 && DecimalDigit(d) == c
  {
    d := c as int - '0' as int;
  }

  lemma DecimalIsOctet(n: nat)
    requires n <= 255
    ensures IsOctet(Decimal(n))
  {
    if n < 10 {
    } else if n < 100 {
      assert Decimal(n / 10) == [DecimalDigit(n / 10)];
    } else {
      assert (n / 10) / 10 == n / 100 && Decimal(n / 100) == [DecimalDigit(n / 100)];
      assert Decimal(n) == [DecimalDigit(n / 100), DecimalDigit(n / 10 % 10), DecimalDigit(n % 10)];
    }
  }

  lemma OctetIsDecimal(s: string) returns (n: nat)
    requires IsOctet(s)
    ensures n <= 255 && s == Decimal(n)
  {
    var a := DigitOf(s[0]);
    if |s| == 1 {
      n := a;
    } else {
      var b := DigitOf(s[1]);
      assert a > 0;
      assert Decimal(10 * a + b) == [s[0], s[1]];
      if |s| == 2 {
        n := 10 * a + b;
      } else {
        var c := DigitOf(s[2]);
        n := 10 * (10 * a + b) + c;
        assert n / 10 == 10 * a + b && n % 10 == c;
        assert Decimal(n) == [s[0], s[1]] + [s[2]];
      }
    }
  }

  /** A field is one of an address exactly when it is a number up to 255 in decimal. */
  lemma OctetIff(s: string)
    ensures IsOctet(s) <==> exists n: nat :: n <= 255 && s == Decimal(n)
  {
    if IsOctet(s) {
      var n := OctetIsDecimal(s);
    }
    if n: nat :| n <= 255 && s == Decimal(n) {
      DecimalIsOctet(n);
    }
  }

  /** What netip.ParseAddr accepts among texts without colons. */
  predicate IsIPv4(s: string) {
    var parts := Split(s, '.');
    |parts| == 4 && forall i | 0 <= i < 4 :: IsOctet(parts[i])
  }

  /** ValidateDNSHostname. IPv6 literals hold colons, which no label does. */
  predicate ValidHostname(s: string) {
    s != "" && |s| <= 253 && s == Lower(s) && !IsIPv4(s) && AreLabels(Split(s, '.'))
  }

  /** hostRE: at least two labels. */
  predicate MatchesHostPattern(s: string) {
    |Split(s, '.')| >= 2 && AreLabels(Split(s, '.'))
  }

  lemma {:induction false} SplitHolds(s: string, sep: char, i: nat)
    requires i < |s| && s[i] != sep
    ensures exists k :: 0 <= k < |Split(s, sep)| && s[i] in Split(s, sep)[k]
  {
    var rest := Split(s[1..], sep);
    var parts := Split(s, sep);
    if i == 0 {
      assert s[0] in parts[0];
    } else {
      SplitHolds(s[1..], sep, i - 1);
      var k :| 0 <= k < |rest| && s[i] in rest[k];
      assert s[i] in parts[if s[0] == sep then k + 1 else k];
    }
  }

  predicate IsHostChar(c: char) {
    IsAlphanumeric(c) || c == '-' || c == '.'
  }

  lemma HostCharAt(s: string, i: nat)
    requires AreLabels(Split(s, '.')) && i < |s|
    ensures IsHostChar(s[i])
  {
    if s[i] != '.' {
      SplitHolds(s, '.', i);
      var k :| 0 <= k < |Split(s, '.')| && s[i] in Split(s, '.')[k];
      assert IsLabel(Split(s, '.')[k]);
    }
  }

  /** A hostname's characters: letters, digits, hyphens and dots, none of which ends a backquoted literal. */
  lemma LabelsAlphabet(s: string)
    requires AreLabels(Split(s, '.'))
    ensures forall i | 0 <= i < |s| :: IsHostChar(s[i])
    ensures Lower(s) == s
  {
    hide *;
    forall i | 0 <= i < |s| ensures IsHostChar(s[i]) {
      HostCharAt(s, i);
    }
    AlreadyLower(s);
  }

  lemma AlreadyLower(s: string)
    requires forall i | 0 <= i < |s| :: IsHostChar(s[i])
    ensures Lower(s) == s
  {
  }

  // ---- Traefik rules ----

  function HostRule(host: string): string {
    "Host(`" + host + "`)"
  }

  function HostRules(hosts: seq<string>): seq<string> {
    seq(|hosts|, i requires 0 <= i < |hosts| => HostRule(hosts[i]))
  }

  const OR := " || "

  function PrintRule(hosts: seq<string>): string {
    Join(HostRules(hosts), OR)
  }

  /** Renders the rule for a list of hosts, or refuses the first invalid one. */
  method RenderRule(hosts: seq<string>) returns (rule: Option<string>)
    ensures rule.Some? <==> forall i | 0 <= i < |hosts| :: ValidHostname(hosts[i])
    ensures rule.Some? ==> rule.value == PrintRule(hosts)
  {
    hide ValidHostname, HostRule, Join;
    var rules: seq<string> := [];
    for i := 0 to |hosts|
      invariant rules == HostRules(hosts[..i])
      invariant forall k | 0 <= k < i :: ValidHostname(hosts[k])
    {
      if !ValidHostname(hosts[i]) {
        return None;
      }
      rules := rules + [HostRule(hosts[i])];
    }
    assert hosts[..|hosts|] == hosts;
    return Some(Join(rules, OR));
  }

  /** Reads up to the first backquote. */
  function UpToQuote(s: string): (n: nat)
    ensures n <= |s| && (n < |s| ==> s[n] == '`') && '`' !in s[..n]
  {
    if s == [] || s[0] == '`' then 0
    else
      var n := UpToQuote(s[1..]);
      assert s[..n + 1] == [s[0]] + s[1..][..n];
      n + 1
  }

  const OPEN := "Host(`"
  const CLOSE := "`)"

  /** Reads a rule back into its hosts. */
  function ParseRule(s: string): Option<seq<string>>
    decreases |s|
  {
    if !(OPEN <= s) then None
    else
      var rest := s[|OPEN|..];
      var n := UpToQuote(rest);
      var tail := rest[n..];
      if tail == CLOSE then Some([rest[..n]])
      else if CLOSE + OR <= tail then
        var more := ParseRule(tail[|CLOSE + OR|..]);
        if more.None? then None else Some([rest[..n]] + more.value)
      else None
  }

  lemma {:induction false} QuoteAfter(host: string, tail: string)
    requires '`' !in host && tail != "" && tail[0] == '`'
    ensures UpToQuote(host + tail) == |host|
  {
    if host == [] {
      assert host + tail == tail;
    } else {
      QuoteAfter(host[1..], tail);
      assert (host + tail)[1..] == host[1..] + tail;
    }
  }

  lemma ParseHost(host: string, tail: string)
    requires '`' !in host && tail != "" && tail[0] == '`'
    ensures var s := OPEN + (host + tail);
      && OPEN <= s && s[|OPEN|..] == host + tail && UpToQuote(s[|OPEN|..]) == |host|
      && s[|OPEN|..][..|host|] == host && s[|OPEN|..][|host|..] == tail
  {
    QuoteAfter(host, tail);
  }

  lemma ParseLast(host: string)
    requires '`' !in host
    ensures ParseRule(OPEN + (host + CLOSE)) == Some([host])
  {
    ParseHost(host, CLOSE);
    hide UpToQuote;
  }

  lemma ParseNext(host: string, more: string)
    requires '`' !in host && ParseRule(more).Some?
    ensures ParseRule(OPEN + (host + (CLOSE + OR + more))) == Some([host] + ParseRule(more).value)
  {
    var tail := CLOSE + OR + more;
    ParseHost(host, tail);
    assert tail[|CLOSE + OR|..] == more && |tail| > |CLOSE|;
    hide UpToQuote;
  }

  lemma PrintLast(host: string)
    ensures PrintRule([host]) == OPEN + (host + CLOSE)
  {
  }

  lemma PrintNext(host: string, hosts: seq<string>)
    requires hosts != []
    ensures PrintRule([host] + hosts) == OPEN + (host + (CLOSE + OR + PrintRule(hosts)))
  {
    assert HostRules([host] + hosts)[1..] == HostRules(hosts);
    assert PrintRule([host] + hosts) == HostRule(host) + OR + PrintRule(hosts);
    hide Join, HostRules;
  }

  /** Parsing a printed rule gives back exactly the hosts, in order. */
  lemma {:induction false} ParsePrint(hosts: seq<string>)
    requires hosts != [] && forall i | 0 <= i < |hosts| :: '`' !in hosts[i]
    ensures ParseRule(PrintRule(hosts)) == Some(hosts)
  {
    hide ParseRule, PrintRule;
    if |hosts| == 1 {
      assert hosts == [hosts[0]];
      PrintLast(hosts[0]);
      ParseLast(hosts[0]);
    } else {
      assert hosts == [hosts[0]] + hosts[1..];
      ParsePrint(hosts[1..]);
      PrintNext(hosts[0], hosts[1..]);
      ParseNext(hosts[0], PrintRule(hosts[1..]));
    }
  }

  lemma ParseCases(s: string) returns (host: string, next: string, last: bool)
    requires ParseRule(s).Some?
    ensures last ==> s == OPEN + (host + CLOSE) && ParseRule(s) == Some([host])
    ensures !last ==>
      && |next| < |s| && s == OPEN + (host + (CLOSE + OR + next))
      && ParseRule(next).Some? && ParseRule(s) == Some([host] + ParseRule(next).value)
  {
    var rest := s[|OPEN|..];
    var n := UpToQuote(rest);
    var tail := rest[n..];
    host, last := rest[..n], tail == CLOSE;
    next := if last then "" else tail[|CLOSE + OR|..];
    assert OPEN <= s && (!last ==> CLOSE + OR <= tail);
    assert last ==> ParseRule(s) == Some([host]);
    assert !last ==> ParseRule(next).Some? && ParseRule(s) == Some([host] + ParseRule(next).value);
    hide *;
    Reassemble(OPEN, s);
    Reassemble(host, rest);
    if !last {
      Reassemble(CLOSE + OR, tail);
    }
  }

  lemma Reassemble(a: string, s: string)
    requires a <= s
    ensures s == a + s[|a|..]
  {
  }

  lemma {:induction false} ParsedIsPrinted(s: string)
    requires ParseRule(s).Some?
    ensures var hosts := ParseRule(s).value; hosts != [] && PrintRule(hosts) == s
    decreases |s|
  {
    hide ParseRule, PrintRule;
    var host, next, last := ParseCases(s);
    if last {
      PrintLast(host);
    } else {
      ParsedIsPrinted(next);
      PrintNext(host, ParseRule(next).value);
    }
  }

  /** A text is read as a list of hosts only if it is that list's rule. */
  lemma ParseIsExact(s: string, hosts: seq<string>)
    requires hosts != [] && forall i | 0 <= i < |hosts| :: '`' !in hosts[i]
    ensures ParseRule(s) == Some(hosts) <==> s == PrintRule(hosts)
  {
    ParsePrint(hosts);
    if ParseRule(s).Some? {
      ParsedIsPrinted(s);
    }
  }

  /** Distinct lists of valid hostnames print differently. */
  lemma RulesAreInjective(hosts: seq<string>, others: seq<string>)
    requires hosts != [] && forall i | 0 <= i < |hosts| :: ValidHostname(hosts[i])
    requires others != [] && forall i | 0 <= i < |others| :: ValidHostname(others[i])
    ensures PrintRule(hosts) == PrintRule(others) <==> hosts == others
  {
    forall i | 0 <= i < |hosts| ensures '`' !in hosts[i] {
      LabelsAlphabet(hosts[i]);
    }
    forall i | 0 <= i < |others| ensures '`' !in others[i] {
      LabelsAlphabet(others[i]);
    }
    ParsePrint(hosts);
    ParsePrint(others);
  }
}
