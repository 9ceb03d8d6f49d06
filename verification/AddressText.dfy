/** Address texts as `src/lib/ip-cidr.ts` prints and parses them, and lists of them as RouterOS keeps in
    `allowed-address`. */
module AddressText {
  import opened Wrappers
  import opened IpCidr
  import opened Text

  // ---------------------------------------------------------------------------------------------
  // Printing

  function Digits(n: nat): string {
    if n < 10 then [('0' as int + n) as char] else Digits(n / 10) + [('0' as int + n % 10) as char]
  }

  /** `numberToIpv4`. */
  function Dotted(ip: Ip): string {
    Digits(ip / 0x100_0000) + "." + Digits(ip / 0x1_0000 % 0x100) + "." + Digits(ip / 0x100 % 0x100) + "."
    + Digits(ip % 0x100)
  }

  // ---------------------------------------------------------------------------------------------
  // Parsing

  predicate IsDigit(c: char) {
    '0' <= c <= '9'
  }

  predicate AllDigits(s: string) {
    forall i :: 0 <= i < |s| ==> IsDigit(s[i])
  }

  function Number(s: string): nat
    requires AllDigits(s)
  {
    if s == "" then 0 else 10 * Number(s[..|s| - 1]) + (s[|s| - 1] as int - '0' as int)
  }

  predicate IsOctet(part: string) {
    part != "" && AllDigits(part) && Number(part) <= 255
  }

  /** `ipv4ToNumber`; `None` is its exception. */
  function ParseIp(text: string): Option<Ip> {
    var parts := Split(Trim(text), '.');
    if |parts| == 4 && IsOctet(parts[0]) && IsOctet(parts[1]) && IsOctet(parts[2]) && IsOctet(parts[3])
    then Some(((Number(parts[0]) * 256 + Number(parts[1])) * 256 + Number(parts[2])) * 256 + Number(parts[3]))
    else None
  }

  /** One digit, two digits from 10 to 29, or 30 to 32. */
  predicate IsPrefix(s: string) {
    || (|s| == 1 && IsDigit(s[0]))
    || (|s| == 2 && '1' <= s[0] <= '2' && IsDigit(s[1]))
    || (|s| == 2 && s[0] == '3' && '0' <= s[1] <= '2')
  }

  lemma PrefixIsNumber(s: string)
    requires IsPrefix(s)
    ensures AllDigits(s) && Number(s) <= 32
  {
    if |s| == 1 {
      assert Number(s[..0]) == 0;
    } else {
      assert s[..1] == [s[0]] && Number(s[..1][..0]) == 0;
      assert Number(s[..1]) == s[0] as int - '0' as int;
    }
  }

  /** `parseIpv4Cidr`; `None` is its exception. */
  function ParseCidr(text: string): Option<Cidr> {
    var parts := Split(Trim(text), '/');
    if |parts| == 2 && IsPrefix(parts[1]) && ParseIp(parts[0]).Some?
    then
      PrefixIsNumber(parts[1]);
      Some(Cidr(ParseIp(parts[0]).value, Number(parts[1])))
    else None
  }

  function NotBlank(parts: seq<string>): seq<string> {
    if parts == [] then [] else (if Trim(parts[0]) != "" then [Trim(parts[0])] else []) + NotBlank(parts[1..])
  }

  /** The entries of a comma-separated list that are not blank. */
  function Parts(text: string): seq<string> {
    NotBlank(Split(text, ','))
  }

  /** What one trimmed entry denotes: a bare address denotes itself only in the form `Dotted` prints. */
  function Denoted(entry: string): Allowed {
    if '/' in entry then
      if ParseCidr(entry).Some? then Block(ParseCidr(entry).value) else Unparsed(entry)
    else if ParseIp(entry).Some? && Dotted(ParseIp(entry).value) == entry then Block(Cidr(ParseIp(entry).value, 32))
    else Unparsed(entry)
  }

  function DenotedAll(entries: seq<string>): seq<Allowed> {
    if entries == [] then [] else [Denoted(entries[0])] + DenotedAll(entries[1..])
  }

  /** The blocks a list of allowed addresses denotes. */
  function Entries(text: string): seq<Allowed> {
    DenotedAll(Parts(text))
  }

  /** `allowedAddressOwnsIp`, entry by entry: a bare address is compared as text. */
  predicate EntryOwnsIp(entry: string, ip: Ip) {
    if '/' !in entry then entry == Dotted(ip)
    else ParseCidr(entry).Some? && WellFormed(ParseCidr(entry).value) && Contains(ParseCidr(entry).value, ip)
  }

  predicate TextOwnsIp(text: string, ip: Ip) {
    exists entry :: entry in Parts(text) && EntryOwnsIp(entry, ip)
  }

  // ---------------------------------------------------------------------------------------------
  // What is printed is what is parsed

  lemma {:induction false} NumberOfDigits(n: nat)
    ensures Digits(n) != "" && AllDigits(Digits(n)) && Number(Digits(n)) == n
  {
    if n >= 10 {
      NumberOfDigits(n / 10);
      assert Digits(n)[..|Digits(n)| - 1] == Digits(n / 10);
    }
  }

  lemma TwoDigits(n: nat)
    ensures n < 10 ==> Digits(n) == [('0' as int + n) as char]
    ensures 10 <= n < 100 ==> Digits(n) == [('0' as int + n / 10) as char, ('0' as int + n % 10) as char]
  {
    if 10 <= n < 100 {
      assert Digits(n) == Digits(n / 10) + [('0' as int + n % 10) as char];
      assert Digits(n / 10) == [('0' as int + n / 10) as char];
    }
  }

  lemma PrintedIsPrefix(n: nat)
    requires n <= 32
    ensures IsPrefix(Digits(n))
  {
    hide Digits;
    TwoDigits(n);
  }

  lemma PrefixPrints(s: string)
    requires IsPrefix(s)
    ensures exists n :: 0 <= n <= 32 && s == Digits(n)
  {
    hide Digits;
    var n := if |s| == 1 then s[0] as int - '0' as int else 10 * (s[0] as int - '0' as int) + (s[1] as int - '0' as int);
    TwoDigits(n);
    assert |s| == 2 ==> s == [s[0], s[1]] && n / 10 == s[0] as int - '0' as int;
    assert 0 <= n <= 32 && s == Digits(n);
  }

  /** A prefix is a number up to 32 as it is printed: no sign and no leading zero. */
  lemma PrefixIsPrinted(s: string)
    ensures IsPrefix(s) <==> exists n :: 0 <= n <= 32 && s == Digits(n)
  {
    hide Digits;
    if IsPrefix(s) { PrefixPrints(s); }
    if n :| 0 <= n <= 32 && s == Digits(n) { PrintedIsPrefix(n); }
  }

  /** The characters a printed address consists of. */
  predicate Plain(s: string) {
    forall i :: 0 <= i < |s| ==> IsDigit(s[i]) || s[i] == '.'
  }

  lemma DottedIsPlain(ip: Ip)
    ensures Plain(Dotted(ip)) && Dotted(ip) != "" && IsDigit(Dotted(ip)[0])
    ensures IsDigit(Dotted(ip)[|Dotted(ip)| - 1])
  {
    hide Digits, Number;
    NumberOfDigits(ip / 0x100_0000);
    NumberOfDigits(ip / 0x1_0000 % 0x100);
    NumberOfDigits(ip / 0x100 % 0x100);
    NumberOfDigits(ip % 0x100);
  }

  lemma SplitDotted(ip: Ip)
    ensures Split(Dotted(ip), '.')
              == [Digits(ip / 0x100_0000), Digits(ip / 0x1_0000 % 0x100), Digits(ip / 0x100 % 0x100),
                                       Digits(ip % 0x100)]
  {
    hide Digits, Number, Split;
    var a, b, c, d :=
      Digits(ip / 0x100_0000), Digits(ip / 0x1_0000 % 0x100), Digits(ip / 0x100 % 0x100), Digits(ip % 0x100);
    NumberOfDigits(ip / 0x100_0000);
    NumberOfDigits(ip / 0x1_0000 % 0x100);
    NumberOfDigits(ip / 0x100 % 0x100);
    NumberOfDigits(ip % 0x100);
    assert a + "." + b + "." + c + "." + d == a + ['.'] + (b + ['.'] + (c + ['.'] + d));
    SplitAfter(a, '.', b + ['.'] + (c + ['.'] + d));
    SplitAfter(b, '.', c + ['.'] + d);
    SplitAfter(c, '.', d);
    SplitAfter(d, '.', "");
  }

  lemma BytesOf(ip: Ip)
    ensures ((ip / 0x100_0000 * 256 + ip / 0x1_0000 % 0x100) * 256 + ip / 0x100 % 0x100) * 256 + ip % 0x100 == ip
    ensures ip / 0x100_0000 <= 255
  {
    assert ip / 0x1_0000 / 0x100 == ip / 0x100_0000 && ip / 0x100 / 0x100 == ip / 0x1_0000;
  }

  /** Every address reads back from its printed form. */
  lemma AddressRoundTrip(ip: Ip)
    ensures ParseIp(Dotted(ip)) == Some(ip)
  {
    DottedIsPlain(ip);
    SplitDotted(ip);
    BytesOf(ip);
    hide Digits, Number, Split, Dotted, Trim;
    NumberOfDigits(ip / 0x100_0000);
    NumberOfDigits(ip / 0x1_0000 % 0x100);
    NumberOfDigits(ip / 0x100 % 0x100);
    NumberOfDigits(ip % 0x100);
    TrimIsClean(Dotted(ip));
  }

  lemma OwnCidrParses(ip: Ip)
    ensures ParseCidr(Dotted(ip) + "/32") == Some(Cidr(ip, 32))
    ensures Denoted(Dotted(ip) + "/32") == Block(Cidr(ip, 32))
  {
    var text := Dotted(ip) + "/32";
    DottedIsPlain(ip);
    AddressRoundTrip(ip);
    hide Digits, Dotted, ParseIp, Split, Trim;
    TrimIsClean(text);
    assert text == Dotted(ip) + ['/'] + "32";
    SplitAfter(Dotted(ip), '/', "32");
    SplitAfter("32", '/', "");
    assert "32"[..1] == "3" && "3"[..0] == "";
    assert text[|Dotted(ip)|] == '/';
  }

  lemma SingleAddressBlock(own: Ip, ip: Ip)
    ensures AllowedOwnsIp([Block(Cidr(own, 32))], ip) <==> ip == own
  {
    var entries := [Block(Cidr(own, 32))];
    assert entries[0] == Block(Cidr(own, 32));
    assert Size(Cidr(own, 32)) == 1;
  }

  lemma EntryIsBlock(entry: string, ip: Ip)
    ensures EntryOwnsIp(entry, ip) <==> AllowedOwnsIp([Denoted(entry)], ip)
  {
    assert [Denoted(entry)][0] == Denoted(entry);
    AddressRoundTrip(ip);
    if '/' !in entry && ParseIp(entry).Some? { SingleAddressBlock(ParseIp(entry).value, ip); }
  }

  lemma {:induction false} DenotedEach(entries: seq<string>)
    ensures |DenotedAll(entries)| == |entries|
    ensures forall i :: 0 <= i < |entries| ==> DenotedAll(entries)[i] == Denoted(entries[i])
  {
    if entries != [] { DenotedEach(entries[1..]); }
  }

  /** Reading a list as blocks loses nothing: an address is in one of the blocks exactly when the text owns it. */
  lemma BlocksAreExact(text: string, ip: Ip)
    ensures AllowedOwnsIp(Entries(text), ip) <==> TextOwnsIp(text, ip)
  {
    var parts := Parts(text);
    DenotedEach(parts);
    forall i | 0 <= i < |parts| ensures EntryOwnsIp(parts[i], ip) <==> AllowedOwnsIp([Denoted(parts[i])], ip) {
      EntryIsBlock(parts[i], ip);
    }
    hide Denoted, EntryOwnsIp, ParseCidr;
    if entry :| entry in parts && EntryOwnsIp(entry, ip) {
      var i :| 0 <= i < |parts| && parts[i] == entry;
      assert AllowedOwnsIp([Denoted(parts[i])], ip);
      assert Entries(text)[i] == Denoted(parts[i]);
    }
    if i :| 0 <= i < |parts| && Denoted(parts[i]).Block? && WellFormed(Denoted(parts[i]).cidr)
            && Contains(Denoted(parts[i]).cidr, ip) {
      assert [Denoted(parts[i])][0] == Denoted(parts[i]);
      assert parts[i] in parts;
    }
  }

  /** Trimmed, not blank, and without commas. */
  predicate GoodParts(parts: seq<string>) {
    forall i :: 0 <= i < |parts| ==> parts[i] != "" && Trim(parts[i]) == parts[i] && ',' !in parts[i]
  }

  lemma {:induction false} NotBlankIsGood(parts: seq<string>)
    requires forall i :: 0 <= i < |parts| ==> ',' !in parts[i]
    ensures GoodParts(NotBlank(parts))
  {
    hide Trim;
    if parts != [] {
      NotBlankIsGood(parts[1..]);
      TrimIsClean(parts[0]);
      TrimIsPart(parts[0]);
    }
  }

  lemma {:induction false} GoodIsNotBlank(parts: seq<string>)
    requires GoodParts(parts)
    ensures NotBlank(parts) == parts
  {
    hide Trim;
    if parts != [] { GoodIsNotBlank(parts[1..]); }
  }

  lemma OwnIsGood(ip: Ip)
    ensures GoodParts([Dotted(ip) + "/32"]) && Join([Dotted(ip) + "/32"], ",") == Dotted(ip) + "/32"
  {
    var own := Dotted(ip) + "/32";
    DottedIsPlain(ip);
    hide Trim, Dotted;
    TrimIsClean(own);
    assert own[0] == Dotted(ip)[0] && own[|own| - 1] == '2';
    forall i | 0 <= i < |own| ensures own[i] != ',' {
      assert own[i] == if i < |Dotted(ip)| then Dotted(ip)[i] else "/32"[i - |Dotted(ip)|];
    }
  }

  lemma {:induction false} PartsOfJoined(parts: seq<string>)
    requires GoodParts(parts)
    ensures Parts(Join(parts, ",")) == parts
  {
    hide Trim, Split;
    if parts == [] {
      SplitAfter("", ',', "");
      assert NotBlank([""]) == [] by { TrimIsClean(""); }
    } else {
      SplitOfJoin(parts, ',');
      GoodIsNotBlank(parts);
    }
  }

  // ---------------------------------------------------------------------------------------------
  // Replacing a peer's own address

  /** `replaceClientAddress`: the first entry becomes the given address. */
  function ReplaceClientAddress(existing: string, ip: Ip): string {
    var own := Dotted(ip) + "/32";
    if Parts(existing) == [] then own else Join([own] + Parts(existing)[1..], ",")
  }

  function Rest(parts: seq<string>): seq<string> {
    if parts == [] then [] else parts[1..]
  }

  lemma PartsReplaced(existing: string, ip: Ip)
    ensures Parts(ReplaceClientAddress(existing, ip)) == [Dotted(ip) + "/32"] + Rest(Parts(existing))
  {
    var own, parts := Dotted(ip) + "/32", Parts(existing);
    var replaced := [own] + Rest(parts);
    OwnIsGood(ip);
    SplitParts(existing, ',');
    NotBlankIsGood(Split(existing, ','));
    hide Trim, Split, Dotted, NotBlank, Join;
    forall i | 0 <= i < |replaced|
      ensures replaced[i] != "" && Trim(replaced[i]) == replaced[i] && ',' !in replaced[i]
    {
      assert i > 0 ==> replaced[i] == parts[i];
      assert [own][0] == own;
    }
    PartsOfJoined(replaced);
    assert parts == [] ==> replaced == [own];
  }

  /** The new list denotes the given address alone, followed by what the other entries denoted. */
  lemma ReplacedAddress(existing: string, ip: Ip)
    ensures Entries(ReplaceClientAddress(existing, ip)) ==
            [Block(Cidr(ip, 32))] + if Entries(existing) == [] then [] else Entries(existing)[1..]
  {
    var own, parts := Dotted(ip) + "/32", Parts(existing);
    PartsReplaced(existing, ip);
    OwnCidrParses(ip);
    hide Parts, Denoted, Dotted, ReplaceClientAddress;
    assert ([own] + Rest(parts))[1..] == Rest(parts);
    assert DenotedAll([own] + Rest(parts)) == [Denoted(own)] + DenotedAll(Rest(parts));
  }

  lemma OwnEntries(ip: Ip)
    ensures Entries(Dotted(ip) + "/32") == [Block(Cidr(ip, 32))]
  {
    var own := Dotted(ip) + "/32";
    OwnIsGood(ip);
    OwnCidrParses(ip);
    hide Trim, Split, Dotted, Denoted, Join, NotBlank;
    PartsOfJoined([own]);
    assert DenotedAll([own]) == [Denoted(own)] + DenotedAll([own][1..]);
  }

  /** The list `createPeer` sends owns the peer's address and no other. */
  lemma OwnAddressOnly(ip: Ip, other: Ip)
    ensures TextOwnsIp(Dotted(ip) + "/32", other) <==> other == ip
  {
    OwnEntries(ip);
    SingleAddressBlock(ip, other);
    BlocksAreExact(Dotted(ip) + "/32", other);
  }
}
