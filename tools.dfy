/** The two computational tools and the tool registry of project/src/utils/tools.ts:
    `sumTool`, `primeNumberTool`, `availableTools` and `toolDeclarations`. */
module Tools {
  import opened Types

  // ---------------------------------------------------------------- sumTool

  /** `sumTool({num1, num2})`, over exact reals (IEEE rounding is not modelled):
      the number that exceeds each operand by the other. */
  function SumTool(num1: real, num2: real): (r: real)
    ensures r - num1 == num2 && r - num2 == num1
  {
    num1 + num2
  }

  lemma SumCommutative(a: real, b: real)
    ensures SumTool(a, b) == SumTool(b, a)
  {
  }

  lemma SumAssociative(a: real, b: real, c: real)
    ensures SumTool(SumTool(a, b), c) == SumTool(a, SumTool(b, c))
  {
  }

  lemma SumExample()
    ensures SumTool(25.0, 37.0) == 62.0 && SumTool(-1.5, 0.25) == -1.25
  {
  }

  // ---------------------------------------------------------- primeNumberTool

  /** The meaning of primality: at least 2 and no divisor strictly between 1 and itself. */
  ghost predicate Prime(n: int) {
    n >= 2 && forall d :: 2 <= d < n ==> n % d != 0
  }

  lemma DivisibleNotPrime(n: int, d: int)
    requires 2 <= d < n && n % d == 0
    ensures !Prime(n)
  {
  }

  /** A product is divisible by a positive factor (Euclidean remainder). */
  lemma ProductDivisible(n: int, e: int, d: int)
    requires e >= 1 && n == e * d
    ensures n % e == 0
  {
    var q, r := n / e, n % e;
    assert n == e * q + r && 0 <= r < e;
    var k := d - q;
    assert e * k == r;
  }

  /** An odd number has no even divisor. */
  lemma OddHasNoEvenDivisor(n: int, d: int)
    requires n % 2 == 1 && d >= 2 && d % 2 == 0
    ensures n % d != 0
  {
    if n % d == 0 {
      var q := n / d;
      assert n == d * q;
      var h := d / 2;
      assert d == 2 * h;
      assert n == 2 * (h * q);
      ProductDivisible(n, 2, h * q);
    }
  }

  lemma MulMonotone(a: int, b: int, c: int)
    requires a >= 0 && b <= c
    ensures a * b <= a * c
  {
  }

  /** A divisor `d` at or above `i`, where `i * i` exceeds `n`, has a cofactor below `i`. */
  lemma CofactorBelowRoot(n: int, d: int, i: int)
    requires 2 <= i <= d < n && i * i > n && n % d == 0
    ensures 2 <= n / d < i && n % (n / d) == 0
  {
    var e := n / d;
    assert n == d * e;
    if e <= 1 {
      MulMonotone(d, e, 1);
    } else if e >= i {
      MulMonotone(d, i, e);
      MulMonotone(i, i, d);
    } else {
      ProductDivisible(n, e, d);
    }
  }

  /** Trial division may stop at the square root: a number with no divisor below `i`,
      where `i * i` exceeds it, is prime. */
  lemma {:induction false} NoDivisorBelowRoot(n: int, i: int)
    requires n >= 2 && i >= 2 && i * i > n
    requires forall d :: 2 <= d < i ==> n % d != 0
    ensures Prime(n)
  {
    forall d | i <= d < n ensures n % d != 0 {
      if n % d == 0 {
        CofactorBelowRoot(n, d, i);
      }
    }
  }

  lemma LeastFactorBelowNumber(i: int, n: int)
    requires i >= 3 && i * i <= n
    ensures i < n
  {
    assert i * i >= 3 * i;
  }

  /** `primeNumberTool({number})` on an integer: below 2 is not prime, 2 is, other even
      numbers are not, and odd numbers are tried against odd divisors `i` with
      `i <= Math.sqrt(number)`, that is `i * i <= number`. */
  method PrimeNumberTool(number: int) returns (isPrime: bool)
    ensures isPrime <==> Prime(number)
  {
    if number < 2 {
      return false;
    }
    if number == 2 {
      return true;
    }
    if number % 2 == 0 {
      DivisibleNotPrime(number, 2);
      return false;
    }
    var i := 3;
    while i * i <= number
      invariant 3 <= i && i % 2 == 1
      invariant forall d :: 2 <= d < i ==> number % d != 0
    {
      if number % i == 0 {
        LeastFactorBelowNumber(i, number);
        DivisibleNotPrime(number, i);
        return false;
      }
      OddHasNoEvenDivisor(number, i + 1);
      i := i + 2;
    }
    NoDivisorBelowRoot(number, i);
    return true;
  }

  /** The short cuts at the top of `primeNumberTool` agree with primality. */
  lemma PrimeShortcuts(n: int)
    ensures n < 2 ==> !Prime(n)
    ensures n == 2 ==> Prime(n)
    ensures n != 2 && n % 2 == 0 ==> !Prime(n)
  {
    if n > 2 && n % 2 == 0 {
      DivisibleNotPrime(n, 2);
    }
  }

  /** The sample inputs -5, 0, 1, 2, 3, 4, 17, 18, 97, 100. */
  lemma PrimeSamples()
    ensures !Prime(-5) && !Prime(0) && !Prime(1) && Prime(2) && Prime(3) && !Prime(4)
    ensures Prime(17) && !Prime(18) && Prime(97) && !Prime(100)
  {
    DivisibleNotPrime(4, 2);
    DivisibleNotPrime(18, 2);
    DivisibleNotPrime(100, 2);
    NoDivisorBelowRoot(2, 2);
    NoDivisorBelowRoot(3, 2);
    forall d | 2 <= d < 5 ensures 17 % d != 0 {
      if d == 2 {} else if d == 3 {} else {}
    }
    NoDivisorBelowRoot(17, 5);
    forall d | 2 <= d < 10 ensures 97 % d != 0 {
      if d == 2 {} else if d == 3 {} else if d == 4 {} else if d == 5 {}
      else if d == 6 {} else if d == 7 {} else if d == 8 {} else {}
    }
    NoDivisorBelowRoot(97, 10);
  }

  // ---------------------------------------------------------- availableTools

  /** The six entries of `availableTools`. */
  datatype ToolName = Sum | PrimeNumber | CryptoPrice | News | DcfValuation | CurrencyConversion

  /** The registry in declaration order. */
  const Registry: seq<ToolName> := [Sum, PrimeNumber, CryptoPrice, News, DcfValuation, CurrencyConversion]

  /** The property name under which each tool is registered. */
  function Key(t: ToolName): string {
    match t
    case Sum => "sum"
    case PrimeNumber => "primeNumber"
    case CryptoPrice => "cryptoPrice"
    case News => "news"
    case DcfValuation => "dcfValuation"
    case CurrencyConversion => "currencyConversion"
  }

  const RegistryKeys: set<string> :=
    {"sum", "primeNumber", "cryptoPrice", "news", "dcfValuation", "currencyConversion"}

  /** `availableTools[name]` as an own-property lookup: the tool registered under
      `name`, or nothing for every other name. */
  function Lookup(name: string): (r: Option<ToolName>)
    ensures r.Some? <==> name in RegistryKeys
    ensures r.Some? ==> Key(r.value) == name
    ensures r.None? ==> forall t: ToolName :: Key(t) != name
  {
    if name == "sum" then Some(Sum)
    else if name == "primeNumber" then Some(PrimeNumber)
    else if name == "cryptoPrice" then Some(CryptoPrice)
    else if name == "news" then Some(News)
    else if name == "dcfValuation" then Some(DcfValuation)
    else if name == "currencyConversion" then Some(CurrencyConversion)
    else None
  }

  /** Every tool is found under its own key, the keys are pairwise distinct, and
      the registry lists each of the six tools exactly once. */
  lemma RegistryRoundTrip()
    ensures forall t: ToolName :: Lookup(Key(t)) == Some(t)
    ensures forall s, t: ToolName :: Key(s) == Key(t) ==> s == t
    ensures |RegistryKeys| == 6 && |Registry| == 6
    ensures forall t: ToolName :: t in Registry
    ensures forall i, j :: 0 <= i < j < |Registry| ==> Registry[i] != Registry[j]
  {
    forall t: ToolName ensures Lookup(Key(t)) == Some(t) {
      match t
      case Sum =>
      case PrimeNumber =>
      case CryptoPrice =>
      case News =>
      case DcfValuation =>
      case CurrencyConversion =>
    }
    forall t: ToolName ensures t in Registry {
      match t
      case Sum => assert Registry[0] == t;
      case PrimeNumber => assert Registry[1] == t;
      case CryptoPrice => assert Registry[2] == t;
      case News => assert Registry[3] == t;
      case DcfValuation => assert Registry[4] == t;
      case CurrencyConversion => assert Registry[5] == t;
    }
    assert |{"sum", "primeNumber", "cryptoPrice", "news", "dcfValuation"}| == 5;
  }

  /** Object.prototype members that a property read on the object literal
      `availableTools` also finds (`__proto__` included). */
  const ObjectPrototypeMembers: set<string> := {
    "constructor", "hasOwnProperty", "isPrototypeOf", "propertyIsEnumerable",
    "toLocaleString", "toString", "valueOf", "__defineGetter__", "__defineSetter__",
    "__lookupGetter__", "__lookupSetter__", "__proto__"}

  /** What `availableTools[name]` reads in JavaScript: an own tool, an inherited
      Object.prototype member (truthy), or `undefined`. */
  datatype Property = OwnTool(tool: ToolName) | Inherited(member: string) | Missing

  /** The property read as the source writes it, prototype chain included. */
  function PropertyLookup(name: string): (p: Property)
    ensures p.OwnTool? <==> Lookup(name).Some?
    ensures p.OwnTool? ==> p.tool == Lookup(name).value
    ensures p.Inherited? <==> name in ObjectPrototypeMembers
    ensures p.Missing? <==> name !in RegistryKeys && name !in ObjectPrototypeMembers
  {
    match Lookup(name)
    case Some(t) => OwnTool(t)
    case None => if name in ObjectPrototypeMembers then Inherited(name) else Missing
  }

  // --------------------------------------------------------- toolDeclarations

  datatype ParamType = NumberType | StringType

  datatype Param = Param(name: string, ptype: ParamType, description: string)

  /** One function declaration advertised to the model: an OBJECT schema with its
      properties and the list of required ones (absent for `news`: none required). */
  datatype Declaration = Declaration(
    name: string, description: string, properties: seq<Param>, required: seq<string>)

  const ToolDeclarations: seq<Declaration> := [
    Declaration("sum", "Calculate the sum of two numbers",
      [Param("num1", NumberType, "First number"), Param("num2", NumberType, "Second number")],
      ["num1", "num2"]),
    Declaration("primeNumber", "Check if a number is prime",
      [Param("number", NumberType, "Number to check for primality")],
      ["number"]),
    Declaration("cryptoPrice", "Get current cryptocurrency price and market data",
      [Param("coin", StringType, "Cryptocurrency ID (e.g., bitcoin, ethereum)")],
      ["coin"]),
    Declaration("news", "Get latest news articles by category or search query",
      [Param("query", StringType, "Search query for news articles"),
       Param("category", StringType, "News category (technology, business, sports, etc.)")],
      []),
    Declaration("dcfValuation", "Perform DCF (Discounted Cash Flow) valuation analysis for a stock",
      [Param("ticker", StringType, "Stock ticker symbol (e.g., AAPL, GOOGL)")],
      ["ticker"]),
    Declaration("currencyConversion", "Convert amount from one currency to another",
      [Param("amount", NumberType, "Amount to convert"),
       Param("from", StringType, "Source currency code (e.g., USD)"),
       Param("to", StringType, "Target currency code (e.g., EUR)")],
      ["amount", "from", "to"])
  ]

  /** A parameter of a tool function's TypeScript signature: name, type, optional. */
  datatype SignatureField = Field(name: string, ptype: ParamType, optional: bool)

  /** The destructured parameter of each tool function, as its signature types it. */
  function Signature(t: ToolName): seq<SignatureField> {
    match t
    case Sum => [Field("num1", NumberType, false), Field("num2", NumberType, false)]
    case PrimeNumber => [Field("number", NumberType, false)]
    case CryptoPrice => [Field("coin", StringType, false)]
    case News => [Field("query", StringType, true), Field("category", StringType, true)]
    case DcfValuation => [Field("ticker", StringType, false)]
    case CurrencyConversion =>
      [Field("amount", NumberType, false), Field("from", StringType, false), Field("to", StringType, false)]
  }

  function MandatoryNames(fs: seq<SignatureField>): seq<string> {
    if fs == [] then []
    else (if fs[0].optional then [] else [fs[0].name]) + MandatoryNames(fs[1..])
  }

  /** A declaration describes a signature when it lists the same parameters, in the
      same order and with the same types, and requires exactly the mandatory ones. */
  predicate Describes(d: Declaration, fs: seq<SignatureField>) {
    && |d.properties| == |fs|
    && (forall k :: 0 <= k < |fs| ==> d.properties[k].name == fs[k].name && d.properties[k].ptype == fs[k].ptype)
    && d.required == MandatoryNames(fs)
  }

  /** The declarations follow the registry one for one: the i-th declaration is named
      by the i-th registry key, so their names are distinct registry keys, and each
      advertises exactly the parameters its tool function destructures. */
  lemma DeclarationsMatchRegistry()
    ensures |ToolDeclarations| == |Registry|
    ensures forall i :: 0 <= i < |Registry| ==> ToolDeclarations[i].name == Key(Registry[i])
    ensures forall i :: 0 <= i < |ToolDeclarations| ==> Lookup(ToolDeclarations[i].name) == Some(Registry[i])
    ensures forall i, j :: 0 <= i < j < |ToolDeclarations| ==> ToolDeclarations[i].name != ToolDeclarations[j].name
    ensures forall i :: 0 <= i < |Registry| ==> Describes(ToolDeclarations[i], Signature(Registry[i]))
  {
    RegistryRoundTrip();
    forall i | 0 <= i < |Registry| ensures Describes(ToolDeclarations[i], Signature(Registry[i])) {
      var fs := Signature(Registry[i]);
      if i == 0 {
        assert MandatoryNames(fs) == ["num1"] + MandatoryNames(fs[1..]);
        assert MandatoryNames(fs[1..]) == ["num2"] + MandatoryNames(fs[2..]);
      } else if i == 3 {
        assert MandatoryNames(fs) == MandatoryNames(fs[1..]);
        assert MandatoryNames(fs[1..]) == MandatoryNames(fs[2..]);
      } else if i == 5 {
        assert MandatoryNames(fs) == ["amount"] + MandatoryNames(fs[1..]);
        assert MandatoryNames(fs[1..]) == ["from"] + MandatoryNames(fs[2..]);
        assert MandatoryNames(fs[2..]) == ["to"] + MandatoryNames(fs[3..]);
      } else {
        assert MandatoryNames(fs) == [fs[0].name] + MandatoryNames(fs[1..]);
      }
    }
  }

  /** Every required field of every declaration is one of its declared properties. */
  lemma RequiredAreDeclared()
    ensures forall i, r :: 0 <= i < |ToolDeclarations| && r in ToolDeclarations[i].required ==>
      exists k :: 0 <= k < |ToolDeclarations[i].properties| && ToolDeclarations[i].properties[k].name == r
  {
    forall i, r | 0 <= i < |ToolDeclarations| && r in ToolDeclarations[i].required
      ensures exists k :: 0 <= k < |ToolDeclarations[i].properties| && ToolDeclarations[i].properties[k].name == r
    {
      var ps := ToolDeclarations[i].properties;
      if i == 0 {
        if r == "num1" { assert ps[0].name == r; } else { assert ps[1].name == r; }
      } else if i == 1 {
        assert ps[0].name == r;
      } else if i == 2 {
        assert ps[0].name == r;
      } else if i == 3 {
      } else if i == 4 {
        assert ps[0].name == r;
      } else {
        if r == "amount" { assert ps[0].name == r; }
        else if r == "from" { assert ps[1].name == r; }
        else { assert ps[2].name == r; }
      }
    }
  }
}
