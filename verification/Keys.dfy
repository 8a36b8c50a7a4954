/** The subscription key grammar: what is a valid key, how one is generated and
    what is read back from it. */
module Keys {
  import opened Wrappers
  import opened Text

  // ----- the accepted format -----

  predicate IsHex(c: char) {
    '0' <= c <= '9' || 'a' <= c <= 'f'
  }

  predicate AllHex(s: string) {
    forall i | 0 <= i < |s| :: IsHex(s[i])
  }

  predicate IsLevel(c: char) {
    c == 'c' || c == 'b' || c == 's' || c == 'p'
  }

  predicate IsSocketDigit(c: char) {
    c == '1' || c == '2' || c == '4' || c == '8'
  }

  /** The regular expression pve[1248][cbsp]-[0-9a-f]{10} | p(bs|mg)[cbsp]-[0-9a-f]{10} */
  predicate ValidKey(key: string) {
    || (&& |key| == 16
        && key[..3] == "pve" && IsSocketDigit(key[3]) && IsLevel(key[4]) && key[5] == '-'
        && AllHex(key[6..]))
    || (&& |key| == 15
        && (key[..3] == "pbs" || key[..3] == "pmg") && IsLevel(key[3]) && key[4] == '-'
        && AllHex(key[5..]))
  }

  predicate ProductCode(product: string) {
    product == "pve" || product == "pbs" || product == "pmg"
  }

  const LAB_SIGNATURE := "1ab"
  const LAB_MARKER := "(LAB, proxmox-license-proxy - NOT FOR PRODUCTION)"

  // ----- generating -----

  type Byte = b: nat | b < 256
  type Entropy = s: seq<Byte> | |s| == 4 witness [0, 0, 0, 0]

  const HEX_DIGITS := "0123456789abcdef"

  function HexEncode(bytes: seq<Byte>): (s: string)
    ensures |s| == 2 * |bytes| && AllHex(s)
  {
    if bytes == [] then ""
    else [HEX_DIGITS[bytes[0] / 16], HEX_DIGITS[bytes[0] % 16]] + HexEncode(bytes[1..])
  }

  datatype KeyError = UnknownProduct | UnknownLevel | NoEntropy | UnknownSockets

  predicate ValidSockets(sockets: string) {
    sockets == "1" || sockets == "2" || sockets == "4" || sockets == "8"
  }

  function EffectiveLevel(level: string): string {
    if level == "" then "c" else level
  }

  /** entropy is None when the random source fails. */
  function GenerateKey(product: string, level: string, sockets: string, entropy: Option<Entropy>)
    : Result<string, KeyError>
  {
    var level := EffectiveLevel(level);
    if !ProductCode(product) then Err(UnknownProduct)
    else if |level| != 1 || !IsLevel(level[0]) then Err(UnknownLevel)
    else if entropy == None then Err(NoEntropy)
    else
      var hexPart := LAB_SIGNATURE + HexEncode(entropy.value)[..7];
      if product == "pve" then
        var sockets := if sockets == "" then "1" else sockets;
        if !ValidSockets(sockets) then Err(UnknownSockets)
        else Ok(product + sockets + level + "-" + hexPart)
      else
        Ok(product + level + "-" + hexPart)
  }

  // ----- reading back -----

  function KeySockets(key: string): nat {
    if |key| < 4 || key[..3] != "pve" then 0
    else if key[3] == '1' then 1
    else if key[3] == '2' then 2
    else if key[3] == '4' then 4
    else if key[3] == '8' then 8
    else 0
  }

  /** strings.IndexByte(s, '-'), or |s| when there is none. */
  function DashIndex(s: string): (i: nat)
    ensures i <= |s|
    ensures i < |s| ==> s[i] == '-'
    ensures forall j | 0 <= j < i :: s[j] != '-'
  {
    if s == "" || s[0] == '-' then 0 else 1 + DashIndex(s[1..])
  }

  predicate IsLabKey(key: string) {
    var i := DashIndex(key);
    i < |key| && LAB_SIGNATURE <= key[i + 1..]
  }

  function ProductName(product: string): string {
    match product
    case "pve" => "Proxmox VE"
    case "pbs" => "Proxmox Backup Server"
    case "pmg" => "Proxmox Mail Gateway"
    case _ => "Proxmox"
  }

  function LevelName(c: char): string {
    match c
    case 'c' => "Community"
    case 'b' => "Basic"
    case 's' => "Standard"
    case 'p' => "Premium"
    case _ => ""
  }

  datatype Description = Description(product: string, name: string, level: string)

  function Describe(key: string): Description {
    var i := DashIndex(key);
    if i == |key| || i < 4 then Description("", "Proxmox Subscription", "")
    else
      var product := key[..3];
      var level := LevelName(key[i - 1]);
      Description(product, TrimSpace(ProductName(product) + " " + level + " Subscription"), level)
  }

  /** The smallest PVE tier that covers a host with this many sockets, or 8. */
  function PVESocketTier(sockets: int): string {
    if sockets <= 1 then "1"
    else if sockets <= 2 then "2"
    else if sockets <= 4 then "4"
    else "8"
  }

  // ----- the grammar is unambiguous -----

  /** What a valid key says: sockets is 0 for the products without a socket digit. */
  datatype Parts = Parts(product: string, sockets: nat, level: char, hex: string) {
    predicate WellFormed() {
      && ProductCode(product)
      && (if product == "pve" then sockets == 1 || sockets == 2 || sockets == 4 || sockets == 8 else sockets == 0)
      && (level == 'c' || level == 'b' || level == 's' || level == 'p')
      && |hex| == 10 && forall i | 0 <= i < |hex| :: '0' <= hex[i] <= '9' || 'a' <= hex[i] <= 'f'
    }
  }

  function SocketText(sockets: nat): string {
    match sockets
    case 1 => "1"
    case 2 => "2"
    case 4 => "4"
    case 8 => "8"
    case _ => ""
  }

  function PrintKey(p: Parts): string {
    p.product + SocketText(p.sockets) + [p.level] + "-" + p.hex
  }

  function ParseKey(key: string): Parts
    requires ValidKey(key)
  {
    Parts(key[..3], KeySockets(key), key[DashIndex(key) - 1], key[DashIndex(key) + 1..])
  }

  lemma PrintedLayout(p: Parts)
    requires p.WellFormed()
    ensures var key := PrintKey(p);
      && ValidKey(key)
      && KeySockets(key) == p.sockets
      && DashIndex(key) == |key| - 11
      && key[..3] == p.product && key[|key| - 12] == p.level && key[|key| - 10..] == p.hex
  {
    var key := PrintKey(p);
    var n := |key| - 11;
    assert key[|key| - 10..] == p.hex;
    assert key[..3] == p.product;
    assert forall j | 0 <= j < n :: key[j] != '-';
    assert key[n] == '-';
  }

  /** Every well-formed tuple prints to a valid key and is read back from it. */
  lemma ParsePrint(p: Parts)
    requires p.WellFormed()
    ensures ValidKey(PrintKey(p)) && ParseKey(PrintKey(p)) == p
  {
    PrintedLayout(p);
  }

  lemma PrintParse(key: string)
    requires ValidKey(key)
    ensures ParseKey(key).WellFormed() && PrintKey(ParseKey(key)) == key
  {
    var n := |key| - 11;
    assert key[n] == '-';
    assert forall j | 0 <= j < 3 :: key[j] == key[..3][j];
    assert DashIndex(key) == n;
    assert key == PrintKey(ParseKey(key));
  }

  /** The keys that match the format are exactly the printed tuples, each printed
      by one tuple only. */
  lemma GrammarIsUnambiguous(key: string)
    ensures ValidKey(key) <==> exists p: Parts :: p.WellFormed() && PrintKey(p) == key
    ensures forall p: Parts, q: Parts | p.WellFormed() && q.WellFormed() && PrintKey(p) == PrintKey(q) :: p == q
  {
    if ValidKey(key) {
      PrintParse(key);
    }
    forall p: Parts | p.WellFormed()
      ensures ValidKey(PrintKey(p)) && ParseKey(PrintKey(p)) == p
    {
      ParsePrint(p);
    }
  }

  /** What a product and a level are called. */
  function SpokenProduct(product: string): string {
    if product == "pve" then "Proxmox VE" else if product == "pbs" then "Proxmox Backup Server" else "Proxmox Mail Gateway"
  }

  function SpokenLevel(level: char): string {
    if level == 'c' then "Community" else if level == 'b' then "Basic" else if level == 's' then "Standard" else "Premium"
  }

  /** Describe and KeySockets read back exactly what a valid key says, and the key
      carries sockets exactly when it is a PVE key. */
  lemma DescribeReadsKey(p: Parts)
    requires p.WellFormed()
    ensures var key := PrintKey(p);
      && Describe(key) == Description(p.product, SpokenProduct(p.product) + " " + SpokenLevel(p.level) + " Subscription", SpokenLevel(p.level))
      && KeySockets(key) == p.sockets
      && (KeySockets(key) > 0 <==> Describe(key).product == "pve")
      && (IsLabKey(key) <==> "1ab" <= p.hex)
  {
    PrintedLayout(p);
    TrimSpaceOfTrimmed(ProductName(p.product) + " " + LevelName(p.level) + " Subscription");
  }

  /** Any text, valid or not, is a lab key exactly when "1ab" follows its first dash, and is
      shown without a product when it has no dash after its first four characters. */
  lemma FirstDashDecides(key: string, before: string, after: string)
    requires '-' !in before
    ensures '-' !in key ==> !IsLabKey(key) && Describe(key) == Description("", "Proxmox Subscription", "")
    ensures IsLabKey(before + "-" + after) <==> |after| >= 3 && after[..3] == "1ab"
    ensures |before| < 4 ==> Describe(before + "-" + after) == Description("", "Proxmox Subscription", "")
    ensures |before| >= 4 ==> Describe(before + "-" + after).product == before[..3]
    ensures |before| >= 4 && !ProductCode(before[..3]) && !IsLevel(before[|before| - 1]) ==>
      Describe(before + "-" + after).name == "Proxmox" + " " + "" + " Subscription"
  {
    var k := before + "-" + after;
    assert k[|before|] == '-' && k[|before| + 1..] == after;
    assert forall j | 0 <= j < |before| :: k[j] != '-';
    assert DashIndex(k) == |before|;
    TrimSpaceOfTrimmed("Proxmox" + " " + "" + " Subscription");
  }

  // ----- generated keys -----

  predicate Generates(product: string, level: string, sockets: string, entropy: Option<Entropy>) {
    && ProductCode(product)
    && |EffectiveLevel(level)| == 1 && IsLevel(EffectiveLevel(level)[0])
    && entropy != None
    && (product == "pve" ==> sockets == "" || ValidSockets(sockets))
  }

  /** The tuple that a generated key prints. */
  function GeneratedParts(product: string, level: string, sockets: string, entropy: Entropy): Parts
    requires Generates(product, level, sockets, Some(entropy))
  {
    Parts(
      product,
      if product == "pve" then DigitValue(if sockets == "" then "1" else sockets) else 0,
      EffectiveLevel(level)[0],
      LAB_SIGNATURE + HexEncode(entropy)[..7])
  }

  lemma GeneratedIsPrinted(product: string, level: string, sockets: string, entropy: Option<Entropy>)
    ensures GenerateKey(product, level, sockets, entropy).Ok? <==> Generates(product, level, sockets, entropy)
    ensures Generates(product, level, sockets, entropy) ==>
      var p := GeneratedParts(product, level, sockets, entropy.value);
      p.WellFormed() && GenerateKey(product, level, sockets, entropy) == Ok(PrintKey(p))
  {
    if Generates(product, level, sockets, entropy) {
      var level := EffectiveLevel(level);
      assert level == [level[0]];
      assert product != "pve" ==> product + "" == product;
    }
  }

  /** When generation succeeds, and what the generated key says. */
  lemma GenerateKeyPrints(product: string, level: string, sockets: string, entropy: Option<Entropy>)
    ensures GenerateKey(product, level, sockets, entropy).Ok? <==>
      && ProductCode(product)
      && |EffectiveLevel(level)| == 1 && IsLevel(EffectiveLevel(level)[0])
      && entropy != None
      && (product == "pve" ==> sockets == "" || ValidSockets(sockets))
    ensures GenerateKey(product, level, sockets, entropy) == Err(UnknownProduct) <==> !ProductCode(product)
    ensures GenerateKey(product, level, sockets, entropy) == Err(UnknownLevel) <==>
      ProductCode(product) && !(level == "" || (|level| == 1 && level[0] in {'c', 'b', 's', 'p'}))
    ensures GenerateKey(product, level, sockets, entropy).Ok? ==>
      var key := GenerateKey(product, level, sockets, entropy).value;
      && ValidKey(key) && IsLabKey(key)
      && ParseKey(key).product == product
      && [ParseKey(key).level] == (if level == "" then "c" else level)
      && ParseKey(key).hex == "1ab" + HexEncode(entropy.value)[..7]
      && (product == "pve" && sockets == "" ==> KeySockets(key) == 1)
      && (product == "pve" && sockets != "" ==> Atoi(sockets) == Some(KeySockets(key)))
  {
    GeneratedIsPrinted(product, level, sockets, entropy);
    if Generates(product, level, sockets, entropy) {
      var p := GeneratedParts(product, level, sockets, entropy.value);
      ParsePrint(p);
      DescribeReadsKey(p);
      if product == "pve" {
        AtoiOfSocketDigit(if sockets == "" then "1" else sockets);
      }
    }
  }

  lemma HexDigitsDiffer(i: nat, j: nat)
    requires i < 16 && j < 16
    ensures HEX_DIGITS[i] == HEX_DIGITS[j] <==> i == j
  {
  }

  lemma {:induction false} HexPairsDiffer(a: seq<Byte>, b: seq<Byte>)
    requires |a| == |b|
    ensures HexEncode(a) == HexEncode(b) <==> a == b
  {
    if a != [] {
      HexPairsDiffer(a[1..], b[1..]);
      HexDigitsDiffer(a[0] / 16, b[0] / 16);
      HexDigitsDiffer(a[0] % 16, b[0] % 16);
      var x, y := HexEncode(a), HexEncode(b);
      assert x[2..] == HexEncode(a[1..]) && y[2..] == HexEncode(b[1..]);
      assert a == [a[0]] + a[1..] && b == [b[0]] + b[1..];
      if x == y {
        assert x[0] == y[0] && x[1] == y[1] && x[2..] == y[2..];
        assert a[0] == a[0] / 16 * 16 + a[0] % 16;
      }
    }
  }

  lemma {:induction false} HexEncodeSplit(a: seq<Byte>, b: Byte)
    ensures HexEncode(a + [b]) == HexEncode(a) + HexEncode([b])
  {
    if a == [] {
      assert a + [b] == [b];
    } else {
      assert (a + [b])[0] == a[0] && (a + [b])[1..] == a[1..] + [b];
      HexEncodeSplit(a[1..], b);
    }
  }

  /** Two generated keys of one kind are equal exactly when their random bytes agree on
      the first 28 bits. */
  lemma KeysCollide(product: string, level: string, sockets: string, e: Entropy, f: Entropy)
    requires GenerateKey(product, level, sockets, Some(e)).Ok?
    ensures GenerateKey(product, level, sockets, Some(e)) == GenerateKey(product, level, sockets, Some(f)) <==>
            e[..3] == f[..3] && e[3] / 16 == f[3] / 16
  {
    GenerateKeyPrints(product, level, sockets, Some(e));
    GenerateKeyPrints(product, level, sockets, Some(f));
    var k, k' := GenerateKey(product, level, sockets, Some(e)), GenerateKey(product, level, sockets, Some(f));
    assert k == k' <==> ParseKey(k.value).hex == ParseKey(k'.value).hex by {
      PrintParse(k.value);
      PrintParse(k'.value);
    }
    SuffixesDiffer(e, f);
    assert forall x: string :: (LAB_SIGNATURE + x)[3..] == x;
  }

  lemma SuffixesDiffer(e: Entropy, f: Entropy)
    ensures HexEncode(e)[..7] == HexEncode(f)[..7] <==> e[..3] == f[..3] && e[3] / 16 == f[3] / 16
  {
    assert e == e[..3] + [e[3]] && f == f[..3] + [f[3]];
    HexEncodeSplit(e[..3], e[3]);
    HexEncodeSplit(f[..3], f[3]);
    HexPairsDiffer(e[..3], f[..3]);
    HexDigitsDiffer(e[3] / 16, f[3] / 16);
    var x, y := HexEncode(e)[..7], HexEncode(f)[..7];
    assert x == HexEncode(e[..3]) + [HEX_DIGITS[e[3] / 16]];
    assert y == HexEncode(f[..3]) + [HEX_DIGITS[f[3] / 16]];
    if x == y {
      assert x[..6] == HexEncode(e[..3]) && y[..6] == HexEncode(f[..3]);
      assert x[6] == y[6];
    }
  }

  /** The tier chosen for a host is the least one that covers it, or the greatest of all
      when none does. */
  lemma PVESocketTierIsLeast(n: int, tier: string)
    requires ValidSockets(tier)
    ensures var chosen := PVESocketTier(n);
      && ValidSockets(chosen)
      && (n <= KeySockets("pve" + tier) ==> n <= KeySockets("pve" + chosen) <= KeySockets("pve" + tier))
      && (n > KeySockets("pve" + chosen) ==> KeySockets("pve" + tier) <= KeySockets("pve" + chosen))
  {
  }

  function DigitValue(digit: string): (n: nat)
    requires ValidSockets(digit)
    ensures SocketText(n) == digit && n == KeySockets("pve" + digit)
  {
    if digit == "1" then 1 else if digit == "2" then 2 else if digit == "4" then 4 else 8
  }

  lemma AtoiOfSocketDigit(digit: string)
    requires ValidSockets(digit)
    ensures Atoi(digit) == Some(KeySockets("pve" + digit))
  {
    assert digit[..0] == "";
    assert DecimalValue(digit) == digit[0] as int - '0' as int;
  }
}
