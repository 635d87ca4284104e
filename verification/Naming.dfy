/** Connection names: InetAddress::toIpPort and the snprintf in TcpServer::newConnection. */
module Naming {

  /** An IPv4 endpoint as inet_ntop and ntohs print it. */
  datatype InetAddress = InetAddress(a: nat, b: nat, c: nat, d: nat, port: nat) {
    predicate Valid() {
      a < 256 && b < 256 && c < 256 && d < 256 && port < 65536
    }
  }

  const INT_MAX: nat := 0x7fff_ffff

  /** Bytes snprintf may keep of a 64-byte field: the last one is the terminator. */
  const NAME_FIELD: nat := 63

  function Digit(n: nat): char
    requires n < 10
  {
    '0' + n as char
  }

  /** The decimal form that %d and %u print for a non-negative number. */
  function Decimal(n: nat): (s: string)
    ensures |s| > 0
  {
    if n < 10 then [Digit(n)] else Decimal(n / 10) + [Digit(n % 10)]
  }

  /** Reads a decimal form back. */
  function Parse(s: string): int {
    if s == [] then 0 else 10 * Parse(s[..|s| - 1]) + (s[|s| - 1] as int - '0' as int)
  }

  lemma {:induction false} ParseDecimal(n: nat)
    ensures Parse(Decimal(n)) == n
  {
    var s := Decimal(n);
    if n < 10 {
      assert s[..0] == [];
    } else {
      ParseDecimal(n / 10);
      assert s[..|s| - 1] == Decimal(n / 10);
    }
  }

  function Power10(k: nat): nat {
    if k == 0 then 1 else 10 * Power10(k - 1)
  }

  lemma {:induction false} DecimalLength(n: nat, k: nat)
    requires k > 0 && n < Power10(k)
    ensures |Decimal(n)| <= k
  {
    if n >= 10 {
      DecimalLength(n / 10, k - 1);
    }
  }

  function ToIpPort(addr: InetAddress): string {
    Decimal(addr.a) + "." + Decimal(addr.b) + "." + Decimal(addr.c) + "." + Decimal(addr.d)
    + ":" + Decimal(addr.port)
  }

  function Truncate(s: string): string {
    if |s| <= NAME_FIELD then s else s[..NAME_FIELD]
  }

  function Suffix(addr: InetAddress, id: nat): string {
    "-" + ToIpPort(addr) + "#" + Decimal(id)
  }

  function ConnName(server: string, addr: InetAddress, id: nat): string {
    server + Truncate(Suffix(addr, id))
  }

  lemma SuffixFits(addr: InetAddress, id: nat)
    requires addr.Valid() && id <= INT_MAX
    ensures |Suffix(addr, id)| <= NAME_FIELD
  {
    assert Power10(3) == 1000 && Power10(5) == 100_000;
    assert Power10(10) == 100_000 * Power10(5);
    DecimalLength(addr.a, 3);
    DecimalLength(addr.b, 3);
    DecimalLength(addr.c, 3);
    DecimalLength(addr.d, 3);
    DecimalLength(addr.port, 5);
    DecimalLength(id, 10);
  }

  /** Before the id overflows, two connections of one server never share a name. */
  lemma NamesDistinct(server: string, addr: InetAddress, i: nat, j: nat)
    requires addr.Valid() && i <= INT_MAX && j <= INT_MAX && i != j
    ensures ConnName(server, addr, i) != ConnName(server, addr, j)
  {
    SuffixFits(addr, i);
    SuffixFits(addr, j);
    ParseDecimal(i);
    ParseDecimal(j);
    var front := server + "-" + ToIpPort(addr) + "#";
    assert ConnName(server, addr, i) == front + Decimal(i);
    assert ConnName(server, addr, j) == front + Decimal(j);
    assert (front + Decimal(i))[|front|..] == Decimal(i);
    assert (front + Decimal(j))[|front|..] == Decimal(j);
  }

  /** The 64-byte field is what the bound protects: a longer suffix would be cut to the same name. */
  lemma TruncationWouldCollide(s: string, x: string, y: string)
    requires |s| >= NAME_FIELD
    ensures Truncate(s + x) == Truncate(s + y)
  {
    assert (s + x)[..NAME_FIELD] == s[..NAME_FIELD];
    assert (s + y)[..NAME_FIELD] == s[..NAME_FIELD];
  }

  // ---------------------------------------------------------------- a name read back

  /** What stands before the first `mark`, and what stands after it. */
  function Cut(s: string, mark: char): (string, string) {
    if s == [] then ([], [])
    else if s[0] == mark then ([], s[1..])
    else ([s[0]] + Cut(s[1..], mark).0, Cut(s[1..], mark).1)
  }

  lemma {:induction false} CutAt(front: string, mark: char, rest: string)
    requires mark !in front
    ensures Cut(front + [mark] + rest, mark) == (front, rest)
  {
    var s := front + [mark] + rest;
    if front == [] {
      assert s[1..] == rest;
    } else {
      assert s[1..] == front[1..] + [mark] + rest;
      assert s[0] == front[0] && front[0] in front;
      CutAt(front[1..], mark, rest);
      assert [front[0]] + front[1..] == front;
    }
  }

  lemma {:induction false} DecimalDigits(n: nat)
    ensures forall c <- Decimal(n) :: '0' <= c <= '9'
  {
    if n >= 10 {
      DecimalDigits(n / 10);
    }
  }

  /** Reads an endpoint: four numbers with dots between them, a colon, the port. */
  function ReadIpPort(s: string): (int, int, int, int, int) {
    var (a, s1) := Cut(s, '.');
    var (b, s2) := Cut(s1, '.');
    var (c, s3) := Cut(s2, '.');
    var (d, port) := Cut(s3, ':');
    (Parse(a), Parse(b), Parse(c), Parse(d), Parse(port))
  }

  lemma CutDecimal(n: nat, mark: char, rest: string)
    requires mark < '0' || mark > '9'
    ensures Cut(Decimal(n) + [mark] + rest, mark) == (Decimal(n), rest)
  {
    DecimalDigits(n);
    CutAt(Decimal(n), mark, rest);
  }

  /** The printed endpoint is read back, each number in its place. */
  lemma IpPortReadBack(addr: InetAddress)
    ensures ReadIpPort(ToIpPort(addr)) == (addr.a, addr.b, addr.c, addr.d, addr.port)
  {
    var p := Decimal(addr.port);
    var s3 := Decimal(addr.d) + [':'] + p;
    var s2 := Decimal(addr.c) + ['.'] + s3;
    var s1 := Decimal(addr.b) + ['.'] + s2;
    assert ToIpPort(addr) == Decimal(addr.a) + ['.'] + s1;
    CutDecimal(addr.a, '.', s1);
    CutDecimal(addr.b, '.', s2);
    CutDecimal(addr.c, '.', s3);
    CutDecimal(addr.d, ':', p);
    ParseDecimal(addr.a);
    ParseDecimal(addr.b);
    ParseDecimal(addr.c);
    ParseDecimal(addr.d);
    ParseDecimal(addr.port);
  }

  lemma NotInDecimal(n: nat, mark: char)
    requires mark < '0' || mark > '9'
    ensures mark !in Decimal(n)
  {
    DecimalDigits(n);
  }

  /** Behind the server's name, a name is a dash, the endpoint, a hash and the id. */
  lemma NameReadBack(server: string, addr: InetAddress, id: nat)
    requires addr.Valid() && id <= INT_MAX
    ensures var name := ConnName(server, addr, id);
            && |name| > |server| && name[..|server|] == server && name[|server|] == '-'
            && var (ipPort, number) := Cut(name[|server| + 1..], '#');
            && ipPort == ToIpPort(addr) && ReadIpPort(ipPort) == (addr.a, addr.b, addr.c, addr.d, addr.port)
            && Parse(number) == id
  {
    SuffixFits(addr, id);
    var suffix := Suffix(addr, id);
    var name := ConnName(server, addr, id);
    assert name == server + suffix;
    assert name[|server|..] == suffix;
    assert name[|server| + 1..] == suffix[1..] == ToIpPort(addr) + ['#'] + Decimal(id);
    NotInDecimal(addr.a, '#');
    NotInDecimal(addr.b, '#');
    NotInDecimal(addr.c, '#');
    NotInDecimal(addr.d, '#');
    NotInDecimal(addr.port, '#');
    CutAt(ToIpPort(addr), '#', Decimal(id));
    IpPortReadBack(addr);
    ParseDecimal(id);
  }
}
