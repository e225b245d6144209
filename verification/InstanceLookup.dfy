/** Finding the port of an instance in the answer of the SQL Server Browser. */
module InstanceLookup {
  import opened Wrappers

  /** Splits as the language's own `split` does: at every occurrence, from the left, without overlaps. */
  function Split(s: string, sep: string): (r: seq<string>)
    requires sep != ""
    ensures r != []
    decreases |s|
  {
    if s == "" then [""]
    else if sep <= s then [""] + Split(s[|sep|..], sep)
    else
      var rest := Split(s[1..], sep);
      [[s[0]] + rest[0]] + rest[1..]
  }

  function Join(parts: seq<string>, sep: string): string
    requires parts != []
  {
    if |parts| == 1 then parts[0] else parts[0] + sep + Join(parts[1..], sep)
  }

  /** The separator does not begin within the string, even if it goes on behind it. */
  predicate Clean(a: string, sep: string) {
    forall i | 0 <= i < |a| :: !(sep <= (a + sep)[i..])
  }

  lemma {:induction false} SplitClean(a: string, sep: string, rest: string)
    requires sep != "" && Clean(a, sep)
    ensures Split(a + sep + rest, sep) == [a] + Split(rest, sep)
    decreases |a|
  {
    var s := a + sep + rest;
    if a == "" {
      assert s == sep + rest && s[|sep|..] == rest;
    } else {
      CleanTail(a, sep);
      SplitClean(a[1..], sep, rest);
      assert s[1..] == a[1..] + sep + rest;
      assert (a + sep)[0..] == a + sep == s[..|a| + |sep|];
      assert !(sep <= s);
      assert [a[0]] + a[1..] == a;
    }
  }

  lemma CleanTail(a: string, sep: string)
    requires a != "" && Clean(a, sep)
    ensures Clean(a[1..], sep)
  {
    forall i | 0 <= i < |a[1..]| ensures !(sep <= (a[1..] + sep)[i..]) {
      assert (a[1..] + sep)[i..] == (a + sep)[i + 1..];
    }
  }

  lemma {:induction false} SplitLast(a: string, sep: string)
    requires sep != "" && Clean(a, sep)
    ensures Split(a, sep) == [a]
    decreases |a|
  {
    if a != "" {
      CleanTail(a, sep);
      SplitLast(a[1..], sep);
      assert (a + sep)[0..] == a + sep && (a + sep)[..|a|] == a;
      assert !(sep <= a);
      assert [a[0]] + a[1..] == a;
    }
  }

  lemma {:induction false} SplitJoin(parts: seq<string>, sep: string)
    requires parts != [] && sep != "" && forall p | p in parts :: Clean(p, sep)
    ensures Split(Join(parts, sep), sep) == parts
    decreases |parts|
  {
    if |parts| == 1 {
      SplitLast(parts[0], sep);
      assert parts == [parts[0]];
    } else {
      SplitJoin(parts[1..], sep);
      SplitClean(parts[0], sep, Join(parts[1..], sep));
      assert [parts[0]] + parts[1..] == parts;
    }
  }

  // The lookup.

  // Numbers.

  predicate IsSpace(c: char) {
    c in " \t\n\r" || c == 11 as char || c == 12 as char
  }

  predicate IsDigit(c: char) {
    '0' <= c <= '9'
  }

  function Digit(c: char): nat
    requires IsDigit(c)
  {
    c as int - '0' as int
  }

  /** The digits at the front; `any` says whether there have been some before. */
  function ParseDigits(s: string, value: nat, any: bool): Option<nat> {
    if s != "" && IsDigit(s[0]) then ParseDigits(s[1..], value * 10 + Digit(s[0]), true)
    else if any then Some(value)
    else None
  }

  function ParseSigned(s: string): Option<int> {
    if s != "" && s[0] in "+-" then
      match ParseDigits(s[1..], 0, false)
      case None => None
      case Some(n) =>
        var i: int := if s[0] == '-' then -(n as int) else n;
        Some(i)
    else
      match ParseDigits(s, 0, false)
      case None => None
      case Some(n) => Some(n)
  }

  /** The language's own `parseInt` in base ten, where `None` is not a number; nor is a text that is missing. */
  function ParseInt(text: Option<string>): Option<int> {
    match text
    case None => None
    case Some(s) => ParseSigned(Trim(s))
  }

  function Trim(s: string): string {
    if s != "" && IsSpace(s[0]) then Trim(s[1..]) else s
  }

  function Decimal(n: nat): (s: string)
    ensures s != "" && IsDigit(s[0])
  {
    var last := (n % 10 + '0' as int) as char;
    if n < 10 then [last] else Decimal(n / 10) + [last]
  }

  lemma {:induction false} DecimalDigits(n: nat, rest: string)
    ensures ParseDigits(Decimal(n) + rest, 0, false) == ParseDigits(rest, n, true)
  {
    var last := (n % 10 + '0' as int) as char;
    assert Digit(last) == n % 10;
    if n < 10 {
      assert (Decimal(n) + rest)[1..] == rest;
    } else {
      assert Decimal(n) + rest == Decimal(n / 10) + ([last] + rest);
      DecimalDigits(n / 10, [last] + rest);
      assert ([last] + rest)[1..] == rest;
    }
  }

  /** A port that was printed in decimal is read back. */
  lemma {:induction false} ParseDecimal(n: nat)
    ensures ParseInt(Some(Decimal(n))) == Some(n)
  {
    DecimalDigits(n, "");
    assert Decimal(n) + "" == Decimal(n);
  }

  lemma {:induction false} TrimSpaces(spaces: string, s: string)
    requires (forall c | c in spaces :: IsSpace(c)) && (s == "" || !IsSpace(s[0]))
    ensures Trim(spaces + s) == s
  {
    if spaces == "" {
      assert spaces + s == s;
    } else {
      assert spaces[0] in spaces && (spaces + s)[1..] == spaces[1..] + s;
      TrimSpaces(spaces[1..], s);
    }
  }

  /** What is read of any text: white space, a sign, and digits up to the first character that is none. */
  lemma {:induction false} ParseIntLaw(spaces: string, sign: string, n: nat, rest: string)
    requires (forall c | c in spaces :: IsSpace(c)) && sign in {"", "+", "-"} && (rest == "" || !IsDigit(rest[0]))
    ensures ParseInt(Some(spaces + (sign + (Decimal(n) + rest)))) == Some(if sign == "-" then -(n as int) else n)
  {
    var digits := Decimal(n) + rest;
    var s := sign + digits;
    assert digits[0] == Decimal(n)[0];
    DecimalDigits(n, rest);
    assert sign == "" ==> s == digits;
    assert sign != "" ==> s[0] == sign[0] && s[1..] == digits;
    TrimSpaces(spaces, s);
    hide Decimal, Trim;
  }

  /** Four digits of a port, in their order. */
  lemma {:induction false} DecimalDefault()
    ensures Decimal(1433) == "1433"
  {
    assert Decimal(1) == "1";
    assert Decimal(14) == Decimal(1) + "4";
    assert Decimal(143) == Decimal(14) + "3";
    assert Decimal(1433) == Decimal(143) + "3";
  }

  // Scanning the parts.

  /** A value that is not there makes reading a name fail; a port may be no number. */
  datatype Answer = NotFound | Port(number: Option<int>) | TypeError

  datatype Scan = Going(getPort: bool) | Over(answer: Answer)

  function Value(parts: seq<string>, p: nat): Option<string> {
    if p + 1 < |parts| then Some(parts[p + 1]) else None
  }

  function Step(name: string, value: Option<string>, getPort: bool, instanceName: string, upper: string -> string): Scan {
    if name == "tcp" && getPort then Over(Port(ParseInt(value)))
    else if name != "InstanceName" then Going(getPort)
    else if value.None? then Over(TypeError)
    else Going(upper(value.value) == upper(instanceName))
  }

  function ScanParts(parts: seq<string>, p: nat, getPort: bool, instanceName: string, upper: string -> string): Scan
    decreases |parts| - p
  {
    if p >= |parts| then Going(getPort)
    else
      match Step(parts[p], Value(parts, p), getPort, instanceName, upper)
      case Going(g) => ScanParts(parts, p + 2, g, instanceName, upper)
      case Over(a) => Over(a)
  }

  function ScanInstances(instances: seq<string>, getPort: bool, instanceName: string, upper: string -> string): Answer {
    if instances == [] then NotFound
    else
      match ScanParts(Split(instances[0], ";"), 0, getPort, instanceName, upper)
      case Going(g) => ScanInstances(instances[1..], g, instanceName, upper)
      case Over(a) => a
  }

  method ParseBrowserResponse(response: string, instanceName: string, upper: string -> string) returns (answer: Answer)
    ensures answer == ScanInstances(Split(response, ";;"), false, instanceName, upper)
  {
    var getPort := false;
    var instances := Split(response, ";;");
    for i := 0 to |instances|
      invariant ScanInstances(instances, false, instanceName, upper) == ScanInstances(instances[i..], getPort, instanceName, upper)
    {
      var parts := Split(instances[i], ";");
      var p := 0;
      ghost var before := getPort;
      while p < |parts|
        invariant ScanParts(parts, 0, before, instanceName, upper) == ScanParts(parts, p, getPort, instanceName, upper)
      {
        var name := parts[p];
        var value := Value(parts, p);
        if name == "tcp" && getPort {
          return Port(ParseInt(value));
        }
        if name == "InstanceName" {
          if value.None? {
            return TypeError;
          }
          getPort := upper(value.value) == upper(instanceName);
        }
        p := p + 2;
      }
      assert instances[i..][1..] == instances[i + 1..];
    }
    return NotFound;
  }

  // What a browser sends.

  datatype Entry = Entry(key: string, value: string)

  type Instance = seq<Entry>

  predicate Token(s: string) {
    s != "" && ';' !in s
  }

  predicate Printable(instance: Instance) {
    instance != [] && forall e | e in instance :: Token(e.key) && Token(e.value)
  }

  function Tokens(instance: Instance): (r: seq<string>)
    ensures |r| == 2 * |instance|
  {
    if instance == [] then [] else [instance[0].key, instance[0].value] + Tokens(instance[1..])
  }

  function PrintInstance(instance: Instance): string
    requires instance != []
  {
    Join(Tokens(instance), ";")
  }

  predicate NonEmpty(instances: seq<Instance>) {
    forall i | 0 <= i < |instances| :: instances[i] != []
  }

  predicate AllPrintable(instances: seq<Instance>) {
    forall i | 0 <= i < |instances| :: Printable(instances[i])
  }

  function Printed(instances: seq<Instance>): (r: seq<string>)
    requires NonEmpty(instances)
    ensures |r| == |instances|
  {
    seq(|instances|, k requires 0 <= k < |instances| => PrintInstance(instances[k]))
  }

  /** The instances separated by two semicolons each, and perhaps with two more at the end. */
  function Print(instances: seq<Instance>, closed: bool): string
    requires instances != [] && NonEmpty(instances)
  {
    Join(Printed(instances) + (if closed then [""] else []), ";;")
  }

  /** The port of the entries, which go on from the state that those before have left. */
  function Lookup(entries: seq<Entry>, getPort: bool, instanceName: string, upper: string -> string): Answer {
    if entries == [] then NotFound
    else if entries[0].key == "tcp" && getPort then Port(ParseInt(Some(entries[0].value)))
    else
      Lookup(entries[1..], Remembers(entries[0], getPort, instanceName, upper), instanceName, upper)
  }

  function Flatten(instances: seq<Instance>): seq<Entry> {
    if instances == [] then [] else instances[0] + Flatten(instances[1..])
  }

  lemma TokenClean(s: string)
    requires Token(s)
    ensures Clean(s, ";")
  {
    forall i | 0 <= i < |s| ensures !(";" <= (s + ";")[i..]) {
      assert (s + ";")[i..][0] == s[i];
    }
  }

  lemma {:induction false} TokensAre(instance: Instance)
    requires forall e | e in instance :: Token(e.key) && Token(e.value)
    ensures forall t | t in Tokens(instance) :: Token(t)
  {
    if instance != [] {
      TokensAre(instance[1..]);
    }
  }

  /** No two semicolons in a row, and none at the ends. */
  predicate Spaced(s: string) {
    s != "" && s[0] != ';' && s[|s| - 1] != ';' && forall i | 0 <= i < |s| - 1 :: !(s[i] == ';' && s[i + 1] == ';')
  }

  lemma {:induction false} JoinSpaced(parts: seq<string>)
    requires parts != [] && forall p | p in parts :: Token(p)
    ensures Spaced(Join(parts, ";"))
    decreases |parts|
  {
    var p := parts[0];
    assert p in parts;
    if |parts| > 1 {
      JoinSpaced(parts[1..]);
      var s, rest := Join(parts, ";"), Join(parts[1..], ";");
      assert s == p + ";" + rest;
      forall i | 0 <= i < |s| - 1 ensures !(s[i] == ';' && s[i + 1] == ';') {
        if i > |p| {
          assert s[i] == rest[i - |p| - 1] && s[i + 1] == rest[i - |p|];
        }
      }
      assert s[|s| - 1] == rest[|rest| - 1];
    }
  }

  lemma SpacedClean(s: string)
    requires Spaced(s)
    ensures Clean(s, ";;")
  {
    var t := s + ";;";
    forall i | 0 <= i < |s| ensures !(";;" <= t[i..]) {
      assert t[i..][0] == s[i];
      if i < |s| - 1 {
        assert t[i..][1] == s[i + 1];
      }
    }
  }

  lemma {:induction false} ScanTokens(parts: seq<string>, p: nat, instance: Instance, getPort: bool, instanceName: string, upper: string -> string,
                                      more: seq<Entry>)
    requires p <= |parts| && parts[p..] == Tokens(instance)
    ensures Lookup(instance + more, getPort, instanceName, upper) ==
      match ScanParts(parts, p, getPort, instanceName, upper)
      case Going(g) => Lookup(more, g, instanceName, upper)
      case Over(a) => a
    decreases |instance|
  {
    if instance == [] {
      assert instance + more == more;
    } else {
      var e := instance[0];
      assert parts[p] == parts[p..][0] == e.key && parts[p + 1] == parts[p..][1] == e.value;
      assert parts[p + 2..] == parts[p..][2..] == Tokens(instance[1..]);
      assert (instance + more)[1..] == instance[1..] + more;
      var g := if e.key == "InstanceName" then upper(e.value) == upper(instanceName) else getPort;
      ScanTokens(parts, p + 2, instance[1..], g, instanceName, upper, more);
    }
  }

  lemma {:induction false} ScanPrinted(instances: seq<Instance>, k: nat, tail: seq<string>, getPort: bool, instanceName: string, upper: string -> string)
    requires k <= |instances| && AllPrintable(instances) && NonEmpty(instances) && tail in {[], [""]}
    ensures ScanInstances(Printed(instances)[k..] + tail, getPort, instanceName, upper) == Lookup(Flatten(instances[k..]), getPort, instanceName, upper)
    decreases |instances| - k
  {
    var strings := Printed(instances)[k..] + tail;
    if k == |instances| {
      if tail != [] {
        EmptyInstance(getPort, instanceName, upper);
        assert strings == [""];
      }
    } else {
      var instance := instances[k];
      assert Printable(instance);
      var parts := Tokens(instance);
      TokensAre(instance);
      forall t | t in parts ensures Clean(t, ";") {
        TokenClean(t);
      }
      SplitJoin(parts, ";");
      assert strings[0] == PrintInstance(instance);
      assert strings[1..] == Printed(instances)[k + 1..] + tail;
      assert instances[k..][1..] == instances[k + 1..];
      assert parts[0..] == parts;
      ScanTokens(parts, 0, instance, getPort, instanceName, upper, Flatten(instances[k + 1..]));
      match ScanParts(parts, 0, getPort, instanceName, upper)
      case Going(g) => ScanPrinted(instances, k + 1, tail, g, instanceName, upper);
      case Over(_) =>
    }
  }

  lemma EmptyInstance(getPort: bool, instanceName: string, upper: string -> string)
    ensures ScanInstances([""], getPort, instanceName, upper) == NotFound
  {
    assert Split("", ";") == [""];
    assert ScanParts([""], 0, getPort, instanceName, upper) == ScanParts([""], 2, getPort, instanceName, upper);
    assert [""][1..] == [];
  }

  /** Printing and splitting again changes nothing: the lookup is one over the entries, which remembers the last name. */
  lemma PrintedLookup(instances: seq<Instance>, closed: bool, instanceName: string, upper: string -> string)
    requires instances != [] && AllPrintable(instances) && NonEmpty(instances)
    ensures ScanInstances(Split(Print(instances, closed), ";;"), false, instanceName, upper) == Lookup(Flatten(instances), false, instanceName, upper)
  {
    var tail := if closed then [""] else [];
    var strings := Printed(instances) + tail;
    forall s | s in strings ensures Clean(s, ";;") {
      if s != "" {
        var k :| 0 <= k < |instances| && s == PrintInstance(instances[k]);
        assert Printable(instances[k]);
        TokensAre(instances[k]);
        JoinSpaced(Tokens(instances[k]));
        SpacedClean(s);
      }
    }
    SplitJoin(strings, ";;");
    ScanPrinted(instances, 0, tail, false, instanceName, upper);
    assert Printed(instances)[0..] == Printed(instances) && instances[0..] == instances;
  }

  // Which port is taken.

  /** The port entry that a lookup takes, by its place. */
  function Find(entries: seq<Entry>, getPort: bool, instanceName: string, upper: string -> string): (k: Option<nat>)
    ensures k.Some? ==> k.value < |entries| && entries[k.value].key == "tcp"
  {
    if entries == [] then None
    else if entries[0].key == "tcp" && getPort then Some(0)
    else Shift(1, Find(entries[1..], Remembers(entries[0], getPort, instanceName, upper), instanceName, upper))
  }

  function Shift(n: nat, k: Option<nat>): Option<nat> {
    match k
    case None => None
    case Some(i) => Some(n + i)
  }

  function Remembers(e: Entry, getPort: bool, instanceName: string, upper: string -> string): bool {
    if e.key == "InstanceName" then upper(e.value) == upper(instanceName) else getPort
  }

  /** What is remembered behind all the entries. */
  function RememberedBy(entries: seq<Entry>, getPort: bool, instanceName: string, upper: string -> string): bool {
    if entries == [] then getPort
    else RememberedBy(entries[1..], Remembers(entries[0], getPort, instanceName, upper), instanceName, upper)
  }

  lemma {:induction false} LookupFinds(entries: seq<Entry>, getPort: bool, instanceName: string, upper: string -> string)
    ensures
      var k := Find(entries, getPort, instanceName, upper);
      Lookup(entries, getPort, instanceName, upper) == if k.Some? then Port(ParseInt(Some(entries[k.value].value))) else NotFound
  {
    if entries != [] && !(entries[0].key == "tcp" && getPort) {
      LookupFinds(entries[1..], Remembers(entries[0], getPort, instanceName, upper), instanceName, upper);
    }
  }

  lemma {:induction false} FindStep(entries: seq<Entry>, getPort: bool, instanceName: string, upper: string -> string)
    ensures
      var k := Find(entries, getPort, instanceName, upper);
      if entries == [] then k == None && RememberedBy(entries, getPort, instanceName, upper) == getPort
      else if entries[0].key == "tcp" && getPort then k == Some(0)
      else
        var g := Remembers(entries[0], getPort, instanceName, upper);
        && k == Shift(1, Find(entries[1..], g, instanceName, upper))
        && RememberedBy(entries, getPort, instanceName, upper) == RememberedBy(entries[1..], g, instanceName, upper)
  {
  }

  lemma {:induction false} FindAppend(a: seq<Entry>, b: seq<Entry>, getPort: bool, instanceName: string, upper: string -> string)
    ensures
      var k := Find(a, getPort, instanceName, upper);
      Find(a + b, getPort, instanceName, upper) ==
        if k.Some? then k else Shift(|a|, Find(b, RememberedBy(a, getPort, instanceName, upper), instanceName, upper))
  {
    hide Find, RememberedBy, Remembers;
    FindStep(a, getPort, instanceName, upper);
    FindStep(a + b, getPort, instanceName, upper);
    if a == [] {
      assert a + b == b;
    } else {
      assert (a + b)[0] == a[0] && (a + b)[1..] == a[1..] + b;
      FindAppend(a[1..], b, Remembers(a[0], getPort, instanceName, upper), instanceName, upper);
    }
  }

  /** The port entry of the first instance that has one behind its own matching name. */
  function FindOwn(instances: seq<Instance>, instanceName: string, upper: string -> string): Option<nat> {
    if instances == [] then None
    else
      var k := Find(instances[0], false, instanceName, upper);
      if k.Some? then k else Shift(|instances[0]|, FindOwn(instances[1..], instanceName, upper))
  }

  /** A port stands ahead of the instance's own name. */
  predicate PortAhead(instance: Instance) {
    instance != [] && instance[0].key != "InstanceName" && (instance[0].key == "tcp" || PortAhead(instance[1..]))
  }

  /** While a name is remembered from before, the lookup comes to an instance with a port ahead of its own name. */
  predicate Misled(instances: seq<Instance>, getPort: bool, instanceName: string, upper: string -> string) {
    && instances != []
    && ((getPort && PortAhead(instances[0]))
        || (Find(instances[0], getPort, instanceName, upper).None?
            && Misled(instances[1..], RememberedBy(instances[0], getPort, instanceName, upper), instanceName, upper)))
  }

  /** With no port ahead of its name, what was remembered before makes no difference to an instance. */
  lemma {:induction false} NoPortAhead(instance: Instance, instanceName: string, upper: string -> string)
    ensures !PortAhead(instance) ==> Find(instance, true, instanceName, upper) == Find(instance, false, instanceName, upper)
    ensures PortAhead(instance) ==>
      var k := Find(instance, true, instanceName, upper);
      k.Some? && k != Find(instance, false, instanceName, upper)
  {
    if instance != [] && instance[0].key != "InstanceName" && instance[0].key != "tcp" {
      NoPortAhead(instance[1..], instanceName, upper);
    }
  }

  lemma {:induction false} FindsOwn(instances: seq<Instance>, getPort: bool, instanceName: string, upper: string -> string)
    ensures Find(Flatten(instances), getPort, instanceName, upper) == FindOwn(instances, instanceName, upper)
      <==> !Misled(instances, getPort, instanceName, upper)
    decreases |instances|
  {
    if instances != [] {
      var instance, rest := instances[0], instances[1..];
      var g := RememberedBy(instance, getPort, instanceName, upper);
      FindAppend(instance, Flatten(rest), getPort, instanceName, upper);
      NoPortAhead(instance, instanceName, upper);
      FindsOwn(rest, g, instanceName, upper);
      var k, own := Find(instance, getPort, instanceName, upper), Find(instance, false, instanceName, upper);
      assert Find(Flatten(instances), getPort, instanceName, upper) ==
        if k.Some? then k else Shift(|instance|, Find(Flatten(rest), g, instanceName, upper));
      assert FindOwn(instances, instanceName, upper) == if own.Some? then own else Shift(|instance|, FindOwn(rest, instanceName, upper));
      hide Find, FindOwn, PortAhead, RememberedBy, Flatten;
    }
  }

  /**
   For every list of instances, printed with or without the separator at the end: the
   answer is the number of the port entry that the lookup takes; and that is the one of
   the first instance that has it behind its own matching name, if and only if the lookup
   does not, while it remembers a name, come to a port ahead of the name of another.
   */
  lemma {:induction false} OwnPort(instances: seq<Instance>, closed: bool, instanceName: string, upper: string -> string)
    requires instances != [] && AllPrintable(instances) && NonEmpty(instances)
    ensures
      var k := Find(Flatten(instances), false, instanceName, upper);
      && ScanInstances(Split(Print(instances, closed), ";;"), false, instanceName, upper) ==
           (if k.Some? then Port(ParseInt(Some(Flatten(instances)[k.value].value))) else NotFound)
      && (k == FindOwn(instances, instanceName, upper) <==> !Misled(instances, false, instanceName, upper))
  {
    PrintedLookup(instances, closed, instanceName, upper);
    LookupFinds(Flatten(instances), false, instanceName, upper);
    FindsOwn(instances, false, instanceName, upper);
  }

  // By instances.

  predicate Has(instance: Instance, key: string) {
    instance != [] && (instance[0].key == key || Has(instance[1..], key))
  }

  /** The value of the first entry with the key. */
  function Get(instance: Instance, key: string): string
    requires Has(instance, key)
  {
    if instance[0].key == key then instance[0].value else Get(instance[1..], key)
  }

  /** It has one name, and its port, if it has one, comes behind it. */
  predicate NamedFirst(instance: Instance) {
    && instance != [] && instance[0].key != "tcp"
    && if instance[0].key == "InstanceName" then !Has(instance[1..], "InstanceName") else NamedFirst(instance[1..])
  }

  predicate AllNamedFirst(instances: seq<Instance>) {
    forall i | 0 <= i < |instances| :: NamedFirst(instances[i])
  }

  lemma {:induction false} NamedHas(instance: Instance)
    requires NamedFirst(instance)
    ensures Has(instance, "InstanceName")
  {
    if instance[0].key != "InstanceName" {
      NamedHas(instance[1..]);
    }
  }

  /** The first instance of that name with a port. */
  function FirstMatch(instances: seq<Instance>, instanceName: string, upper: string -> string): Answer
    requires AllNamedFirst(instances)
  {
    if instances == [] then NotFound
    else
      NamedHas(instances[0]);
      if Has(instances[0], "tcp") && upper(Get(instances[0], "InstanceName")) == upper(instanceName) then
        Port(ParseInt(Some(Get(instances[0], "tcp"))))
      else FirstMatch(instances[1..], instanceName, upper)
  }

  /** Behind the name of an instance. */
  lemma {:induction false} LookupNamed(instance: Instance, more: seq<Entry>, getPort: bool, instanceName: string, upper: string -> string)
    requires !Has(instance, "InstanceName")
    ensures Lookup(instance + more, getPort, instanceName, upper) ==
      if getPort && Has(instance, "tcp") then Port(ParseInt(Some(Get(instance, "tcp")))) else Lookup(more, getPort, instanceName, upper)
  {
    if instance == [] {
      assert instance + more == more;
    } else {
      assert (instance + more)[1..] == instance[1..] + more;
      LookupNamed(instance[1..], more, getPort, instanceName, upper);
    }
  }

  /** Ahead of it: a name that was seen before does not matter, because no port comes first. */
  lemma {:induction false} LookupInstance(instance: Instance, more: seq<Entry>, getPort: bool, instanceName: string, upper: string -> string)
    requires NamedFirst(instance)
    ensures Has(instance, "InstanceName")
    ensures
      var matches := upper(Get(instance, "InstanceName")) == upper(instanceName);
      Lookup(instance + more, getPort, instanceName, upper) ==
        if matches && Has(instance, "tcp") then Port(ParseInt(Some(Get(instance, "tcp")))) else Lookup(more, matches, instanceName, upper)
  {
    NamedHas(instance);
    assert (instance + more)[1..] == instance[1..] + more;
    if instance[0].key == "InstanceName" {
      LookupNamed(instance[1..], more, upper(instance[0].value) == upper(instanceName), instanceName, upper);
    } else {
      LookupInstance(instance[1..], more, getPort, instanceName, upper);
    }
  }

  lemma {:induction false} LookupFirst(instances: seq<Instance>, getPort: bool, instanceName: string, upper: string -> string)
    requires AllNamedFirst(instances)
    ensures Lookup(Flatten(instances), getPort, instanceName, upper) == FirstMatch(instances, instanceName, upper)
    decreases |instances|
  {
    if instances != [] {
      LookupInstance(instances[0], Flatten(instances[1..]), getPort, instanceName, upper);
      LookupFirst(instances[1..], upper(Get(instances[0], "InstanceName")) == upper(instanceName), instanceName, upper);
    }
  }

  /** For every list of instances, printed with or without the separator at the end, the answer is the port of the first that matches. */
  lemma BrowserLookup(instances: seq<Instance>, closed: bool, instanceName: string, upper: string -> string)
    requires instances != [] && AllPrintable(instances) && NonEmpty(instances) && AllNamedFirst(instances)
    ensures ScanInstances(Split(Print(instances, closed), ";;"), false, instanceName, upper) == FirstMatch(instances, instanceName, upper)
  {
    PrintedLookup(instances, closed, instanceName, upper);
    LookupFirst(instances, false, instanceName, upper);
  }

  lemma {:induction false} LookupStep(entries: seq<Entry>, getPort: bool, instanceName: string, upper: string -> string)
    requires entries != []
    ensures Lookup(entries, getPort, instanceName, upper) ==
      if entries[0].key == "tcp" && getPort then Port(ParseInt(Some(entries[0].value)))
      else Lookup(entries[1..], Remembers(entries[0], getPort, instanceName, upper), instanceName, upper)
  {
  }

  /** An instance without a name is taken for one more part of the one before it. */
  lemma NamelessInstance(name: string, port: string, upper: string -> string)
    requires Token(name) && Token(port)
    ensures
      var instances := [[Entry("InstanceName", name)], [Entry("tcp", port)]];
      ScanInstances(Split(Print(instances, false), ";;"), false, name, upper) == Port(ParseInt(Some(port)))
  {
    var a, b := [Entry("InstanceName", name)], [Entry("tcp", port)];
    PrintedLookup([a, b], false, name, upper);
    assert Flatten([a, b]) == a + b by {
      assert [a, b][1..] == [b] && [b][1..] == [] && Flatten([b]) == b + [] && Flatten([a, b]) == a + Flatten([b]);
    }
    hide ScanInstances, Split, Print, Flatten, ParseInt, Lookup;
    LookupStep(a + b, false, name, upper);
    assert (a + b)[1..] == b;
    LookupStep(b, true, name, upper);
  }

  // An answer as it comes.

  lemma {:induction false} DecimalToken(n: nat)
    ensures Token(Decimal(n))
  {
    if n >= 10 {
      DecimalToken(n / 10);
    }
  }

  /** An instance with its name and its port, printed. */
  lemma {:induction false} PrintedInstance(name: string, port: string)
    ensures
      var instance := [Entry("InstanceName", name), Entry("tcp", port)];
      instance != [] && PrintInstance(instance) == "InstanceName;" + name + ";tcp;" + port
  {
    var instance := [Entry("InstanceName", name), Entry("tcp", port)];
    assert instance[1..] == [Entry("tcp", port)] && instance[1..][1..] == [];
    assert Tokens(instance[1..]) == ["tcp", port] + Tokens([]);
    var tokens := ["InstanceName", name, "tcp", port];
    assert Tokens(instance) == tokens;
    assert tokens[1..] == [name, "tcp", port] && tokens[1..][1..] == ["tcp", port] && tokens[1..][1..][1..] == [port];
    assert Join([port], ";") == port;
    assert Join(["tcp", port], ";") == "tcp" + ";" + port;
    assert Join([name, "tcp", port], ";") == name + ";" + ("tcp" + ";" + port);
    assert Join(tokens, ";") == "InstanceName" + ";" + (name + ";" + ("tcp" + ";" + port));
    assert "InstanceName;" == "InstanceName" + ";" && ";tcp;" == ";" + "tcp" + ";";
  }

  lemma {:induction false} PrintedTwo(first: Instance, second: Instance)
    requires first != [] && second != []
    ensures NonEmpty([first, second]) && Print([first, second], true) == PrintInstance(first) + ";;" + PrintInstance(second) + ";;"
  {
    hide PrintInstance;
    var a, b := PrintInstance(first), PrintInstance(second);
    var parts := [a, b, ""];
    assert Printed([first, second]) + [""] == parts;
    assert parts[1..] == [b, ""] && parts[1..][1..] == [""];
    assert Join([""], ";;") == "" && Join([b, ""], ";;") == b + ";;" + "";
    assert Join(parts, ";;") == a + ";;" + (b + ";;" + "");
  }

  /** In the letters of the answer: of two instances, the port is that of the one that was asked for, or of the first with that name. */
  lemma {:induction false} TwoInstances(a: string, b: string, p: nat, q: nat, upper: string -> string)
    requires Token(a) && Token(b)
    ensures
      var one, two := "InstanceName;" + a + ";tcp;" + Decimal(p), "InstanceName;" + b + ";tcp;" + Decimal(q);
      ScanInstances(Split(one + ";;" + two + ";;", ";;"), false, b, upper) == Port(Some(if upper(a) == upper(b) then p else q))
  {
    var first, second := [Entry("InstanceName", a), Entry("tcp", Decimal(p))], [Entry("InstanceName", b), Entry("tcp", Decimal(q))];
    DecimalToken(p);
    DecimalToken(q);
    PrintedInstance(a, Decimal(p));
    PrintedInstance(b, Decimal(q));
    PrintedTwo(first, second);
    var instances := [first, second];
    assert Printable(first) && Printable(second);
    PrintedLookup(instances, true, b, upper);
    assert Flatten(instances) == first + second by {
      var none: seq<Instance> := [];
      assert instances[1..] == [second] && [second][1..] == none && Flatten([second]) == second + Flatten(none) == second;
    }
    ParseDecimal(p);
    ParseDecimal(q);
    hide ScanInstances, Split, Print, Flatten, ParseInt, Lookup, Decimal, PrintInstance, Printable;
    var all := first + second;
    LookupStep(all, false, b, upper);
    LookupStep(all[1..], upper(a) == upper(b), b, upper);
    assert all[1..][0] == first[1] && all[1..][1..] == second;
    LookupStep(second, upper(a) == upper(b), b, upper);
    assert second[1..][0] == second[1];
    LookupStep(second[1..], true, b, upper);
  }
}
