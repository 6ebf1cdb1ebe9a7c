/** Port lists on the command line (scripts/dev/check_ports.py). */
module Ports {
  import opened Wrappers
  import opened Text

  const DEFAULT_PORTS: seq<int> :=
    [3000, 3001, 5173, 5174, 8000, 8001, 8080, 7800, 17800, 27800,
     5432, 5433, 25432, 35432, 6379, 6380, 26379, 36379]

  // ------------------------------------------------------------------- numbers

  predicate DigitsOrUnderscores(s: string) {
    forall i | 0 <= i < |s| :: IsDigit(s[i]) || s[i] == '_'
  }

  function WithoutUnderscores(s: string): (r: string)
    ensures DigitsOrUnderscores(s) ==> AllDigits(r)
  {
    if s == "" then ""
    else (if s[0] == '_' then "" else [s[0]]) + WithoutUnderscores(s[1..])
  }

  /** No two underscores stand side by side. */
  predicate SingleUnderscores(s: string)
    ensures AllDigits(s) ==> SingleUnderscores(s)
  {
    var n := |s|;
    n < 2 || (!(s[n - 2] == s[n - 1] == '_') && SingleUnderscores(s[..n - 1]))
  }

  /** Digits, with single underscores between digits. */
  predicate IsNumeral(s: string) {
    && s != "" && IsDigit(s[0]) && IsDigit(s[|s| - 1])
    && DigitsOrUnderscores(s) && SingleUnderscores(s)
  }

  function NumeralValue(s: string): nat
    requires IsNumeral(s)
  {
    ValueOf(WithoutUnderscores(s))
  }

  /** `int(raw)`; `None` is a `ValueError`. */
  function ParseInt(raw: string): Option<int> {
    Signed(Strip(raw))
  }

  function Signed(t: string): Option<int> {
    if t != "" && t[0] == '-' then
      if IsNumeral(t[1..]) then Some(0 - NumeralValue(t[1..]) as int) else None
    else
      var digits := if t != "" && t[0] == '+' then t[1..] else t;
      if IsNumeral(digits) then Some(NumeralValue(digits)) else None
  }

  /** `parse_port`. */
  function ParsePort(raw: string): (port: Option<int>)
    ensures port.Some? ==> 1 <= port.value <= 65535
  {
    var n := ParseInt(raw);
    if n.Some? && 1 <= n.value <= 65535 then n else None
  }

  // -------------------------------------------------------------------- tokens

  function Range(start: int, end: int): (r: seq<int>)
    requires start <= end
    ensures |r| == end - start + 1 && forall i | 0 <= i < |r| :: r[i] == start + i
    decreases end - start
  {
    [start] + if start == end then [] else Range(start + 1, end)
  }

  function Between(start: Option<int>, end: Option<int>): (ports: Option<seq<int>>)
    ensures ports.Some? ==> start.Some? && end.Some? && forall p <- ports.value :: start.value <= p <= end.value
  {
    if start.Some? && end.Some? && start.value <= end.value then Some(Range(start.value, end.value)) else None
  }

  /** The ports a token stands for: one port, or a range around the first dash. */
  function TokenPorts(token: string): (ports: Option<seq<int>>)
    ensures ports.Some? ==> forall p <- ports.value :: 1 <= p <= 65535
  {
    TokenRead(ParsePort, token)
  }

  /** The same, whichever way a single port is read. */
  function TokenRead(read: string -> Option<int>, token: string): Option<seq<int>> {
    var i := Find(token, '-');
    if i < |token| then Between(read(token[..i]), read(token[i + 1..]))
    else if read(token).Some? then Some([read(token).value])
    else None
  }

  /** The stripped parts that are not empty. */
  function NonEmpty(parts: seq<string>): seq<string> {
    if parts == [] then []
    else (if Strip(parts[0]) == "" then [] else [Strip(parts[0])]) + NonEmpty(parts[1..])
  }

  function Tokens(values: seq<string>): seq<string> {
    if values == [] then [] else NonEmpty(Split(values[0], ',')) + Tokens(values[1..])
  }

  /** The ports followed by all ports of the tokens, in order and with repetitions, or `None` when a
      token is refused. */
  function ListedAfter(ports: seq<int>, tokens: seq<string>): Option<seq<int>>
    decreases |tokens|
  {
    if tokens == [] then Some(ports)
    else if TokenPorts(tokens[0]).None? then None
    else ListedAfter(ports + TokenPorts(tokens[0]).value, tokens[1..])
  }

  lemma {:induction false} ListedAppend(ports: seq<int>, a: seq<string>, b: seq<string>)
    ensures ListedAfter(ports, a + b) ==
      if ListedAfter(ports, a).None? then None else ListedAfter(ListedAfter(ports, a).value, b)
    decreases |a|
  {
    if a == [] {
      assert a + b == b;
    } else if TokenPorts(a[0]).Some? {
      assert (a + b)[1..] == a[1..] + b;
      ListedAppend(ports + TokenPorts(a[0]).value, a[1..], b);
    }
  }

  /** The list is refused exactly when one of its tokens is, and adds exactly the ports of its tokens. */
  lemma {:induction false} ListedMeans(ports: seq<int>, tokens: seq<string>)
    ensures ListedAfter(ports, tokens).None? <==> exists token <- tokens :: TokenPorts(token).None?
    ensures ListedAfter(ports, tokens).Some? ==> forall p ::
      p in ListedAfter(ports, tokens).value <==>
        p in ports || exists token <- tokens :: TokenPorts(token).Some? && p in TokenPorts(token).value
    decreases |tokens|
  {
    if tokens != [] {
      assert tokens == [tokens[0]] + tokens[1..];
      if TokenPorts(tokens[0]).Some? { ListedMeans(ports + TokenPorts(tokens[0]).value, tokens[1..]); }
    }
  }

  // -------------------------------- what is read, told by the grammar of the texts

  /** The text is a numeral for `n`: a digit, or a numeral and one more digit, an underscore between
      the two if need be. */
  ghost predicate Writes(s: string, n: nat) {
    && s != "" && IsDigit(s[|s| - 1]) && n % 10 == DigitValue(s[|s| - 1])
    && (|| (|s| == 1 && n < 10)
        || (|s| > 1 && Writes(s[..|s| - 1], n / 10))
        || (|s| > 2 && s[|s| - 2] == '_' && Writes(s[..|s| - 2], n / 10)))
  }

  /** A numeral with a sign or without. */
  ghost predicate SignedText(t: string, n: int) {
    || (n >= 0 && Writes(t, n))
    || (t != "" && t[0] == '+' && n >= 0 && Writes(t[1..], n))
    || (t != "" && t[0] == '-' && n <= 0 && Writes(t[1..], -n))
  }

  /** And with white space around it. */
  ghost predicate IntText(text: string, n: int) {
    exists pre: string, t: string, post: string :: Surrounds(text, pre, t, post) && SignedText(t, n)
  }

  ghost predicate Surrounds(text: string, pre: string, t: string, post: string) {
    text == pre + t + post && AllSpace(pre) && AllSpace(post)
  }

  /** The ports from the first one to the last one, which is no smaller. */
  ghost predicate IsRange(first: Option<int>, last: Option<int>, ports: seq<int>) {
    && ports != [] && first == Some(ports[0]) && last == Some(ports[|ports| - 1])
    && forall k | 0 <= k < |ports| :: ports[k] == ports[0] + k
  }

  ghost predicate FirstDash(token: string, i: int) {
    0 <= i < |token| && token[i] == '-' && '-' !in token[..i]
  }

  /** One port, or a range around the first dash. */
  ghost predicate TokenSays(read: string -> Option<int>, token: string, ports: seq<int>) {
    if '-' !in token then |ports| == 1 && read(token) == Some(ports[0])
    else exists i :: FirstDash(token, i) && IsRange(read(token[..i]), read(token[i + 1..]), ports)
  }

  ghost predicate TokenText(token: string, ports: seq<int>) {
    TokenSays(ParsePort, token, ports)
  }

  lemma {:induction false} UnderscoresLast(s: string, c: char)
    ensures WithoutUnderscores(s + [c]) == WithoutUnderscores(s) + (if c == '_' then "" else [c])
  {
    if s == "" {
      assert s + [c] == [c];
    } else {
      assert (s + [c])[1..] == s[1..] + [c];
      UnderscoresLast(s[1..], c);
    }
  }

  /** What is before the last digit of a numeral, and before the underscore in front of it. */
  function Shortened(s: string): string
    requires |s| > 1
  {
    if s[|s| - 2] == '_' then s[..|s| - 2] else s[..|s| - 1]
  }

  lemma NumeralCut(s: string)
    requires |s| > 1
    ensures IsNumeral(s) <==> IsDigit(s[|s| - 1]) && IsNumeral(Shortened(s))
  {
    var short, n := s[..|s| - 1], |s| - 1;
    assert SingleUnderscores(s) <==> !(s[n - 1] == s[n] == '_') && SingleUnderscores(short);
    assert DigitsOrUnderscores(s) <==> DigitsOrUnderscores(short) && (IsDigit(s[n]) || s[n] == '_');
    if s[n - 1] == '_' && n > 1 {
      assert short[..n - 1] == s[..n - 1];
      assert SingleUnderscores(short) <==> s[n - 2] != '_' && SingleUnderscores(s[..n - 1]);
    }
  }

  lemma ValueCut(s: string)
    requires |s| > 1 && IsNumeral(s)
    ensures IsNumeral(Shortened(s))
    ensures NumeralValue(s) == 10 * NumeralValue(Shortened(s)) + DigitValue(s[|s| - 1])
  {
    NumeralCut(s);
    var short, n := s[..|s| - 1], |s| - 1;
    assert s == short + [s[n]];
    UnderscoresLast(short, s[n]);
    if s[n - 1] == '_' {
      assert short == s[..n - 1] + ['_'];
      UnderscoresLast(s[..n - 1], '_');
    }
    var digits := WithoutUnderscores(s);
    assert digits[..|digits| - 1] == WithoutUnderscores(Shortened(s));
  }

  lemma {:induction false} NumeralMeans(s: string, n: nat)
    ensures IsNumeral(s) && NumeralValue(s) == n <==> Writes(s, n)
    decreases |s|
  {
    if |s| == 1 {
      assert s == [s[0]];
      if IsDigit(s[0]) {
        assert WithoutUnderscores(s[1..]) == "" && WithoutUnderscores(s) == s;
        assert ValueOf(s) == 10 * ValueOf(s[..|s| - 1]) + DigitValue(s[0]) && s[..|s| - 1] == "";
      }
    } else if |s| > 1 {
      NumeralCut(s);
      if IsNumeral(s) { ValueCut(s); }
      NumeralMeans(s[..|s| - 1], n / 10);
      NumeralMeans(s[..|s| - 2], n / 10);
    }
  }

  lemma SignedMeans(t: string, n: int)
    ensures Signed(t) == Some(n) <==> SignedText(t, n)
    ensures SignedText(t, n) ==> t != "" && Tight(t)
  {
    var m: nat := if n < 0 then -n else n;
    NumeralMeans(t, m);
    if t != "" {
      NumeralMeans(t[1..], m);
      if IsNumeral(t[1..]) { assert t[|t| - 1] == t[1..][|t[1..]| - 1]; }
    }
  }

  /** `int` reads exactly the numbers that the text writes. */
  lemma ParseIntMeans(text: string, n: int)
    ensures ParseInt(text) == Some(n) <==> IntText(text, n)
  {
    SignedMeans(Strip(text), n);
    if ParseInt(text) == Some(n) {
      var pre, post := StripTakes(text);
      assert Surrounds(text, pre, Strip(text), post);
    }
    if pre: string, t: string, post: string :| Surrounds(text, pre, t, post) && SignedText(t, n) {
      SignedMeans(t, n);
      StripPadded(pre, t, post);
    }
  }

  /** A text is read as a port exactly when it writes a number that is one. */
  lemma ParsePortMeans(text: string, p: int)
    ensures ParsePort(text) == Some(p) <==> IntText(text, p) && 1 <= p <= 65535
  {
    ParseIntMeans(text, p);
  }

  lemma BetweenMeans(start: Option<int>, end: Option<int>, ports: seq<int>)
    ensures Between(start, end) == Some(ports) <==> IsRange(start, end, ports)
  {
    if IsRange(start, end, ports) {
      assert ports == Range(ports[0], ports[|ports| - 1]);
    }
  }

  lemma DashIsFound(token: string, i: int)
    ensures FirstDash(token, i) <==> i == Find(token, '-') < |token|
    ensures '-' in token <==> Find(token, '-') < |token|
  {
    if FirstDash(token, i) { FindUnique(token, '-', i); }
    assert token[..|token|] == token;
  }

  lemma TokenSaysWhatIsRead(read: string -> Option<int>, token: string, ports: seq<int>)
    ensures TokenRead(read, token) == Some(ports) <==> TokenSays(read, token, ports)
  {
    var i := Find(token, '-');
    DashIsFound(token, i);
    if i < |token| {
      forall j | FirstDash(token, j) ensures j == i { DashIsFound(token, j); }
      BetweenMeans(read(token[..i]), read(token[i + 1..]), ports);
    } else if |ports| == 1 {
      assert ports == [ports[0]];
    }
  }

  /** A token stands for the ports that its text says. */
  lemma TokenMeans(token: string, ports: seq<int>)
    ensures TokenPorts(token) == Some(ports) <==> TokenText(token, ports)
  {
    TokenSaysWhatIsRead(ParsePort, token, ports);
  }

  /** One of the pieces between commas of one of the arguments, stripped, if anything is left of it. */
  ghost predicate Piece(values: seq<string>, token: string) {
    token != "" && exists i | 0 <= i < |values| :: PieceOf(values[i], token)
  }

  ghost predicate PieceOf(value: string, token: string) {
    exists part <- Split(value, ',') :: Strip(part) == token
  }

  lemma {:induction false} NonEmptyMeans(parts: seq<string>, token: string)
    ensures token in NonEmpty(parts) <==> token != "" && exists part <- parts :: Strip(part) == token
  {
    if parts != [] {
      HeadTail(parts);
      NonEmptyMeans(parts[1..], token);
    }
  }

  lemma {:induction false} TokensMean(values: seq<string>, token: string)
    ensures token in Tokens(values) <==> Piece(values, token)
  {
    if values != [] {
      NonEmptyMeans(Split(values[0], ','), token);
      TokensMean(values[1..], token);
      assert forall i | 0 < i < |values| :: values[i] == values[1..][i - 1];
    }
  }

  /** Some piece stands for no ports. */
  ghost predicate Refused(values: seq<string>) {
    exists token :: Piece(values, token) && forall ports :: !TokenText(token, ports)
  }

  /** Some piece stands for the port, among others perhaps. */
  ghost predicate Named(values: seq<string>, p: int) {
    exists token, ports :: Piece(values, token) && TokenText(token, ports) && p in ports
  }

  lemma RefusedMeans(values: seq<string>)
    ensures Refused(values) <==> ListedAfter([], Tokens(values)).None?
  {
    ListedMeans([], Tokens(values));
    if token :| token in Tokens(values) && TokenPorts(token).None? {
      TokensMean(values, token);
      forall ports ensures !TokenText(token, ports) { TokenMeans(token, ports); }
    }
    if token :| Piece(values, token) && forall ports :: !TokenText(token, ports) {
      TokensMean(values, token);
      if TokenPorts(token).Some? { TokenMeans(token, TokenPorts(token).value); }
    }
  }

  lemma NamedMeans(values: seq<string>, p: int)
    requires ListedAfter([], Tokens(values)).Some?
    ensures Named(values, p) <==> p in ListedAfter([], Tokens(values)).value
  {
    ListedMeans([], Tokens(values));
    if token :| token in Tokens(values) && TokenPorts(token).Some? && p in TokenPorts(token).value {
      TokensMean(values, token);
      TokenMeans(token, TokenPorts(token).value);
    }
    if token, ports :| Piece(values, token) && TokenText(token, ports) && p in ports {
      TokensMean(values, token);
      TokenMeans(token, ports);
    }
  }

  // ------------------------------------------------------- removing repetitions

  /** Position of the first occurrence. */
  function First(all: seq<int>, p: int): (i: nat)
    requires p in all
    ensures i < |all| && all[i] == p && p !in all[..i]
  {
    if all[0] == p then 0
    else
      assert forall j | 0 < j <= |all| :: all[..j] == [all[0]] + all[1..][..j - 1];
      1 + First(all[1..], p)
  }

  /** `result` holds each member of `all` once, in the order of the first occurrences. */
  ghost predicate Condensed(all: seq<int>, result: seq<int>) {
    && (forall p :: p in result <==> p in all)
    && forall i, j | 0 <= i < j < |result| :: First(all, result[i]) < First(all, result[j])
  }

  lemma FirstOfExtension(all: seq<int>, p: int, q: int)
    requires p in all + [q]
    ensures First(all + [q], p) == if p in all then First(all, p) else |all|
  {
    if all == [] {
      assert all + [q] == [q];
    } else if all[0] != p {
      assert (all + [q])[1..] == all[1..] + [q];
      FirstOfExtension(all[1..], p, q);
    }
  }

  lemma CondensedExtend(all: seq<int>, result: seq<int>, p: int, longer: seq<int>)
    requires Condensed(all, result) && longer == all + [p]
    ensures Condensed(longer, if p in all then result else result + [p])
  {
    var more := if p in all then result else result + [p];
    forall i, j | 0 <= i < j < |more| ensures First(longer, more[i]) < First(longer, more[j]) {
      FirstOfExtension(all, more[i], p);
      FirstOfExtension(all, more[j], p);
    }
  }

  /** The second loop of `parse_ports`. */
  method Condense(ports: seq<int>) returns (result: seq<int>)
    ensures Condensed(ports, result)
  {
    result := [];
    var seen: set<int> := {};
    for i := 0 to |ports|
      invariant Condensed(ports[..i], result)
      invariant forall p :: p in seen <==> p in ports[..i]
    {
      CondensedExtend(ports[..i], result, ports[i], ports[..i + 1]);
      if ports[i] !in seen {
        result := result + [ports[i]];
        seen := seen + {ports[i]};
      }
    }
    assert ports[..|ports|] == ports;
  }

  // ------------------------------------------------------------ the whole list

  /** The branches on one token. */
  method ParseToken(token: string) returns (ports: Option<seq<int>>)
    ensures ports == TokenPorts(token)
  {
    var dash := Find(token, '-');
    if dash < |token| {
      var start := ParsePort(token[..dash]);
      if start.None? { return None; }
      var end := ParsePort(token[dash + 1..]);
      if end.None? || start.value > end.value { return None; }
      ports := Some(Range(start.value, end.value));
    } else {
      var port := ParsePort(token);
      ports := if port.None? then None else Some([port.value]);
    }
  }

  lemma NonEmptyAt(parts: seq<string>, j: nat)
    requires j < |parts|
    ensures Strip(parts[j]) == "" ==> NonEmpty(parts[j..]) == NonEmpty(parts[j + 1..])
    ensures Strip(parts[j]) != "" ==> NonEmpty(parts[j..]) == [Strip(parts[j])] + NonEmpty(parts[j + 1..])
  {}

  lemma ListedStep(ports: seq<int>, token: string, rest: seq<string>)
    ensures ListedAfter(ports, [token] + rest) ==
      if TokenPorts(token).None? then None else ListedAfter(ports + TokenPorts(token).value, rest)
  {}

  /** The inner loop: the ports of one argument, added to the ports before it. */
  method ParseValue(value: string, ports: seq<int>) returns (result: Option<seq<int>>)
    ensures result == ListedAfter(ports, NonEmpty(Split(value, ',')))
  {
    var parts, all := Split(value, ','), ports;
    for j := 0 to |parts|
      invariant ListedAfter(ports, NonEmpty(parts)) == ListedAfter(all, NonEmpty(parts[j..]))
    {
      NonEmptyAt(parts, j);
      var token := Strip(parts[j]);
      if token == "" { continue; }
      ListedStep(all, token, NonEmpty(parts[j + 1..]));
      var more := ParseToken(token);
      if more.None? { return None; }
      all := all + more.value;
    }
    result := Some(all);
  }

  lemma TokensAt(values: seq<string>, i: nat)
    requires i < |values|
    ensures Tokens(values[i..]) == NonEmpty(Split(values[i], ',')) + Tokens(values[i + 1..])
  {}

  /** `parse_ports`: `None` is the `ValueError` of a refused token. */
  method ParsePorts(values: seq<string>) returns (result: Option<seq<int>>)
    ensures values == [] ==> result == Some(DEFAULT_PORTS)
    ensures values != [] ==> (result.None? <==> Refused(values))
    ensures values != [] && result.Some? ==>
              && (forall p :: p in result.value <==> Named(values, p))
              && (forall i, j | 0 <= i < j < |result.value| :: result.value[i] != result.value[j])
    ensures values != [] ==> (result.None? <==> ListedAfter([], Tokens(values)).None?)
    ensures values != [] && result.Some? ==> Condensed(ListedAfter([], Tokens(values)).value, result.value)
  {
    if values == [] { return Some(DEFAULT_PORTS); }
    RefusedMeans(values);
    var ports := [];
    for i := 0 to |values|
      invariant ListedAfter([], Tokens(values)) == ListedAfter(ports, Tokens(values[i..]))
    {
      TokensAt(values, i);
      ListedAppend(ports, NonEmpty(Split(values[i], ',')), Tokens(values[i + 1..]));
      var more := ParseValue(values[i], ports);
      if more.None? { return None; }
      ports := more.value;
    }
    var condensed := Condense(ports);
    ResultMembers(Tokens(values), condensed);
    forall p { NamedMeans(values, p); }
    result := Some(condensed);
  }

  /** Every member of an accepted list is a listed port, and a port. */
  lemma ResultMembers(tokens: seq<string>, result: seq<int>)
    requires ListedAfter([], tokens).Some? && Condensed(ListedAfter([], tokens).value, result)
    ensures forall p ::
      p in result <==> exists token <- tokens :: TokenPorts(token).Some? && p in TokenPorts(token).value
    ensures forall p <- result :: 1 <= p <= 65535
    ensures forall i, j | 0 <= i < j < |result| :: result[i] != result[j]
  {
    ListedMeans([], tokens);
  }

  // ---------------------------------------------------------------- round trips

  lemma DigitsNumeral(s: string)
    requires s != "" && AllDigits(s)
    ensures IsNumeral(s) && WithoutUnderscores(s) == s && Tight(s)
  {}

  lemma DigitsParse(s: string)
    requires s != "" && AllDigits(s)
    ensures ParseInt(s) == Some(ValueOf(s))
  {
    DigitsNumeral(s);
    StripTight(s);
  }

  /** The decimal text of a port is read as that port. */
  lemma DecimalParses(n: nat)
    ensures ParsePort(Decimal(n)) == if 1 <= n <= 65535 then Some(n) else None
  {
    DigitsParse(Decimal(n));
  }

  lemma PortRoundTrip(p: int)
    requires 1 <= p <= 65535
    ensures TokenPorts(Decimal(p)) == Some([p])
  {
    assert Decimal(p)[..|Decimal(p)|] == Decimal(p);
    FindUnique(Decimal(p), '-', |Decimal(p)|);
    DecimalParses(p);
  }

  /** A printed range is read back as exactly that range, and refused when it is reversed. */
  lemma RangeRoundTrip(a: int, b: int)
    requires 1 <= a <= 65535 && 1 <= b <= 65535
    ensures TokenPorts(Decimal(a) + "-" + Decimal(b)) == if a <= b then Some(Range(a, b)) else None
  {
    var token := Decimal(a) + "-" + Decimal(b);
    assert token[..|Decimal(a)|] == Decimal(a) && token[|Decimal(a)| + 1..] == Decimal(b);
    FindUnique(token, '-', |Decimal(a)|);
    DecimalParses(a);
    DecimalParses(b);
  }

  lemma {:induction false} NonEmptyKeeps(parts: seq<string>)
    requires forall i | 0 <= i < |parts| :: parts[i] != "" && Tight(parts[i])
    ensures NonEmpty(parts) == parts
  {
    if parts != [] {
      StripTight(parts[0]);
      NonEmptyKeeps(parts[1..]);
      assert parts == [parts[0]] + parts[1..];
    }
  }

  function Written(ports: seq<int>): (texts: seq<string>)
    requires forall i | 0 <= i < |ports| :: ports[i] >= 0
    ensures |texts| == |ports| && forall i | 0 <= i < |ports| :: texts[i] == Decimal(ports[i])
  {
    seq(|ports|, i requires 0 <= i < |ports| => Decimal(ports[i]))
  }

  lemma WrittenCons(ports: seq<int>)
    requires ports != [] && forall i | 0 <= i < |ports| :: ports[i] >= 0
    ensures Written(ports) == [Decimal(ports[0])] + Written(ports[1..])
  {}

  lemma {:induction false} WrittenLists(before: seq<int>, ports: seq<int>)
    requires forall i | 0 <= i < |ports| :: 1 <= ports[i] <= 65535
    ensures ListedAfter(before, Written(ports)) == Some(before + ports)
    decreases |ports|
  {
    if ports == [] {
      assert before + ports == before;
    } else {
      var p, tail := ports[0], ports[1..];
      WrittenCons(ports);
      PortRoundTrip(p);
      ListedStep(before, Decimal(p), Written(tail));
      WrittenLists(before + [p], tail);
      Regroup(before, [p], tail);
      HeadTail(ports);
    }
  }

  /** Ports written as one comma-separated argument list exactly those ports, in order. */
  lemma JoinedLists(ports: seq<int>)
    requires ports != [] && forall i | 0 <= i < |ports| :: 1 <= ports[i] <= 65535
    ensures ListedAfter([], NonEmpty(Split(Join(Written(ports), ','), ','))) == Some(ports)
  {
    var texts := Written(ports);
    forall i | 0 <= i < |texts| ensures texts[i] != "" && Tight(texts[i]) && ',' !in texts[i] {
      DigitsNumeral(texts[i]);
    }
    SplitJoin(texts, ',');
    NonEmptyKeeps(texts);
    WrittenLists([], ports);
    assert [] + ports == ports;
  }
}
