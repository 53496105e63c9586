/**
 * String and lookup helpers of `lib/helpers.ts`. JavaScript strings are
 * sequences of characters; case mapping covers ASCII letters only.
 */
module Helpers {
  import opened Wrappers

  // ---------------------------------------------------------------------------
  // Case mapping

  function LowerChar(c: char): char {
    if 'A' <= c <= 'Z' then (c as int + 32) as char else c
  }

  function UpperChar(c: char): char {
    if 'a' <= c <= 'z' then (c as int - 32) as char else c
  }

  /** `toLowerCase`. */
  function ToLower(s: string): (r: string)
    ensures |r| == |s| && forall i :: 0 <= i < |s| ==> r[i] == LowerChar(s[i])
  {
    seq(|s|, i requires 0 <= i < |s| => LowerChar(s[i]))
  }

  /** `toUpperCase`. */
  function ToUpper(s: string): (r: string)
    ensures |r| == |s| && forall i :: 0 <= i < |s| ==> r[i] == UpperChar(s[i])
  {
    seq(|s|, i requires 0 <= i < |s| => UpperChar(s[i]))
  }

  /** Two strings that agree character by character up to case. */
  predicate SameIgnoringCase(a: string, b: string) {
    |a| == |b| && forall i :: 0 <= i < |a| ==> LowerChar(a[i]) == LowerChar(b[i])
  }

  // ---------------------------------------------------------------------------
  // compareAddresses

  /**
   * `compareAddresses`: `add1?.toLowerCase() === add2?.toLowerCase()`; two
   * missing addresses are equal, a missing and a present one are not.
   */
  function CompareAddresses(add1: Option<string>, add2: Option<string>): (r: bool)
    ensures add1.None? && add2.None? ==> r
    ensures add1.None? != add2.None? ==> !r
    ensures add1.Some? && add2.Some? ==> (r <==> SameIgnoringCase(add1.value, add2.value))
  {
    match (add1, add2)
    case (None, None) => true
    case (Some(a), Some(b)) =>
      assert ToLower(a) == ToLower(b) <==> SameIgnoringCase(a, b) by {
        if SameIgnoringCase(a, b) {
          assert forall i :: 0 <= i < |a| ==> ToLower(a)[i] == ToLower(b)[i];
        }
      }
      ToLower(a) == ToLower(b)
    case _ => false
  }

  /** `compareAddresses` is an equivalence. */
  lemma CompareAddressesEquivalence(a: Option<string>, b: Option<string>, c: Option<string>)
    ensures CompareAddresses(a, a)
    ensures CompareAddresses(a, b) == CompareAddresses(b, a)
    ensures CompareAddresses(a, b) && CompareAddresses(b, c) ==> CompareAddresses(a, c)
  {
  }

  // ---------------------------------------------------------------------------
  // capitalizeFirstLetter

  /** `capitalizeFirstLetter`: `charAt(0).toUpperCase() + slice(1)`. */
  function CapitalizeFirstLetter(s: string): (r: string)
    ensures |r| == |s|
    ensures s == [] ==> r == []
    ensures s != [] ==> r[0] == UpperChar(s[0]) && r[1..] == s[1..]
  {
    var first := if s == [] then "" else [s[0]];
    var rest := if s == [] then "" else s[1..];
    ToUpper(first) + rest
  }

  // ---------------------------------------------------------------------------
  // shortenAddress

  /** `"0x"`, the prefix kept in front of the shortened part. */
  const PrefixLength := 2
  /** The default `charsLength`. */
  const DefaultCharsLength := 4
  /** The ellipsis character placed between the two kept ends. */
  const Ellipsis: char := '…'

  /** JavaScript's `s.slice(-n)`; `-0` is `0`, so `n == 0` keeps the whole string. */
  function SliceFromEnd(s: string, n: nat): (r: string)
    ensures n == 0 ==> r == s
    ensures 0 < n <= |s| ==> r == s[|s| - n..]
    ensures n > |s| ==> r == s
  {
    if n == 0 || n > |s| then s else s[|s| - n..]
  }

  /**
   * `shortenAddress`: empty for a missing or empty address, the address itself
   * when shorter than `2 * charsLength + 2`, else its first `charsLength + 2`
   * characters, an ellipsis and `address.slice(-charsLength)`.
   */
  function ShortenAddress(address: Option<string>, charsLength: nat): (r: string)
    ensures address.None? || address.value == [] ==> r == []
    ensures address.Some? && 0 < |address.value| < charsLength * 2 + PrefixLength ==> r == address.value
    ensures address.Some? && |address.value| >= charsLength * 2 + PrefixLength ==>
      && |r| == charsLength + PrefixLength + 1 + |SliceFromEnd(address.value, charsLength)|
      && r[..charsLength + PrefixLength] == address.value[..charsLength + PrefixLength]
      && r[charsLength + PrefixLength] == Ellipsis
      && r[charsLength + PrefixLength + 1..] == SliceFromEnd(address.value, charsLength)
  {
    if address.None? || address.value == [] then ""
    else if |address.value| < charsLength * 2 + PrefixLength then address.value
    else
      var prefix := address.value[..charsLength + PrefixLength];
      var r := prefix + [Ellipsis] + SliceFromEnd(address.value, charsLength);
      assert r[..charsLength + PrefixLength] == prefix;
      assert r[charsLength + PrefixLength + 1..] == SliceFromEnd(address.value, charsLength);
      r
  }

  /** With a positive `charsLength`, a shortened address has exactly `2 * charsLength + 3` characters. */
  lemma ShortenedLength(address: string, charsLength: nat)
    requires charsLength > 0 && |address| >= charsLength * 2 + PrefixLength
    ensures |ShortenAddress(Some(address), charsLength)| == charsLength * 2 + 3
    ensures ShortenAddress(Some(address), charsLength)[charsLength + 3..] == address[|address| - charsLength..]
  {
  }

  /**
   * `shortenAddress(address)` with the default `charsLength` of 4: an address
   * of at least 10 characters becomes its first 6, `…` and its last 4.
   */
  function ShortenAddressDefault(address: Option<string>): (r: string)
    ensures address.None? || address.value == [] ==> r == []
    ensures address.Some? && 0 < |address.value| < 10 ==> r == address.value
    ensures address.Some? && |address.value| >= 10 ==>
      && |r| == 11
      && r[..6] == address.value[..6]
      && r[6] == Ellipsis
      && r[7..] == address.value[|address.value| - 4..]
  {
    ShortenAddress(address, DefaultCharsLength)
  }

  /** As written, `charsLength == 0` appends the WHOLE address after `0x…`. */
  lemma ShortenAddressZeroCharsGrows()
    ensures ShortenAddress(Some("0xabcdef"), 0) == "0x…0xabcdef"
    ensures |ShortenAddress(Some("0xabcdef"), 0)| > |"0xabcdef"|
  {
    var r := ShortenAddress(Some("0xabcdef"), 0);
    assert r == "0x" + [Ellipsis] + "0xabcdef";
  }

  /** `shortenAddress` keeping the last `charsLength` characters, none when it is 0. */
  function ShortenAddressIntended(address: Option<string>, charsLength: nat): (r: string)
    ensures address.None? || address.value == [] ==> r == []
    ensures address.Some? && 0 < |address.value| < charsLength * 2 + PrefixLength ==> r == address.value
    ensures address.Some? && |address.value| >= charsLength * 2 + PrefixLength ==>
      && |r| == charsLength * 2 + 3
      && r[..charsLength + PrefixLength] == address.value[..charsLength + PrefixLength]
      && r[charsLength + PrefixLength] == Ellipsis
      && r[charsLength + PrefixLength + 1..] == address.value[|address.value| - charsLength..]
    ensures |r| <= |address.GetOr("")| + 1
  {
    if address.None? || address.value == [] then ""
    else if |address.value| < charsLength * 2 + PrefixLength then address.value
    else
      var prefix := address.value[..charsLength + PrefixLength];
      var suffix := address.value[|address.value| - charsLength..];
      var r := prefix + [Ellipsis] + suffix;
      assert r[..charsLength + PrefixLength] == prefix;
      assert r[charsLength + PrefixLength + 1..] == suffix;
      r
  }

  // ---------------------------------------------------------------------------
  // DurationToString

  /** The six calendar differences `DurationToYMDh` returns, in its key order. */
  datatype Ymdh = Ymdh(y: int, m: int, d: int, h: int, min: int, sec: int)

  /** The object's entries in `for ... in` order: y, m, d, h, min, sec. */
  function Entries(t: Ymdh): (es: seq<(string, int)>)
    ensures |es| == 6
  {
    [("y", t.y), ("m", t.m), ("d", t.d), ("h", t.h), ("min", t.min), ("sec", t.sec)]
  }

  function DigitChar(n: nat): char
    requires n < 10
  {
    "0123456789"[n]
  }

  /** Decimal digits of a natural, as `${n}` prints it. */
  function NatToString(n: nat): (r: string)
    ensures |r| > 0
    ensures forall i :: 0 <= i < |r| ==> '0' <= r[i] <= '9'
    decreases n
  {
    if n < 10 then [DigitChar(n)] else NatToString(n / 10) + [DigitChar(n % 10)]
  }

  /** `${value}` for an integer. */
  function IntToString(v: int): (r: string)
    ensures |r| > 0 && ' ' !in r
  {
    if v < 0 then "-" + NatToString(-v) else NatToString(v)
  }

  /** `${value}${key}`. */
  function Part(entry: (string, int)): string {
    IntToString(entry.1) + entry.0
  }

  /** The parts `DurationToString` pushes: one per non-zero entry, in order. */
  function NonZeroParts(es: seq<(string, int)>): (ps: seq<string>)
    ensures |ps| <= |es|
  {
    if es == [] then []
    else
      var last := es[|es| - 1];
      NonZeroParts(es[..|es| - 1]) + (if last.1 != 0 then [Part(last)] else [])
  }

  /** JavaScript's `xs.slice(0, length)`: a negative `length` counts from the end. */
  function SliceFront<T>(xs: seq<T>, length: int): (r: seq<T>)
    ensures length >= 0 ==> |r| == if length < |xs| then length else |xs|
    ensures r <= xs
  {
    if length >= 0 then (if length < |xs| then xs[..length] else xs)
    else if |xs| + length > 0 then xs[..|xs| + length]
    else []
  }

  /** The summed lengths of some strings. */
  function TotalLength(parts: seq<string>): nat {
    if parts == [] then 0 else |parts[0]| + TotalLength(parts[1..])
  }

  /**
   * `parts.join(sep)`: empty for no parts; otherwise it starts with the first
   * part, ends with the last, and adds one separator between neighbours.
   */
  function Join(parts: seq<string>, sep: string): (r: string)
    ensures parts == [] ==> r == []
    ensures parts != [] ==>
      && |r| == TotalLength(parts) + (|parts| - 1) * |sep|
      && r[..|parts[0]|] == parts[0]
      && |parts[|parts| - 1]| <= |r|
      && r[|r| - |parts[|parts| - 1]|..] == parts[|parts| - 1]
  {
    if parts == [] then ""
    else if |parts| == 1 then parts[0]
    else
      var rest := Join(parts[1..], sep);
      var r := parts[0] + sep + rest;
      assert parts[1..][|parts| - 2] == parts[|parts| - 1];
      assert r[..|parts[0]|] == parts[0];
      assert r[|r| - |rest|..] == rest;
      r
  }

  /** The number of spaces in a string. */
  function Spaces(s: string): nat {
    if s == [] then 0 else (if s[0] == ' ' then 1 else 0) + Spaces(s[1..])
  }

  /**
   * `DurationToString` on the six differences already computed: push
   * `${value}${key}` for every non-zero value, keep the first `length` parts
   * and join them with single spaces.
   */
  method DurationToString(t: Ymdh, length: int) returns (s: string)
    ensures s == Join(SliceFront(NonZeroParts(Entries(t)), length), " ")
  {
    var temp := Entries(t);
    var res: seq<string> := [];
    for i := 0 to |temp|
      invariant res == NonZeroParts(temp[..i])
    {
      var (key, value) := temp[i];
      assert temp[..i + 1][..i] == temp[..i];
      if value != 0 {
        res := res + [Part((key, value))];
      }
    }
    assert temp[..|temp|] == temp;
    s := Join(SliceFront(res, length), " ");
  }

  /** `DurationToString(ms)` with the default `length` of 3: at most three parts. */
  method DurationToStringDefault(t: Ymdh) returns (s: string)
    ensures s == Join(SliceFront(NonZeroParts(Entries(t)), 3), " ")
    ensures Spaces(s) < 3
  {
    s := DurationToString(t, 3);
    AtMostLengthParts(t, 3);
  }

  lemma {:induction false} SpacesAppend(a: string, b: string)
    ensures Spaces(a + b) == Spaces(a) + Spaces(b)
  {
    if a == [] {
      assert a + b == b;
    } else {
      assert (a + b)[1..] == a[1..] + b;
      SpacesAppend(a[1..], b);
    }
  }

  lemma {:induction false} SpacesNone(s: string)
    requires ' ' !in s
    ensures Spaces(s) == 0
  {
    if s != [] {
      SpacesNone(s[1..]);
    }
  }

  /** Every part is a non-zero value followed by its key, and holds no space. */
  lemma {:induction false} PartsAreNonZeroEntries(es: seq<(string, int)>)
    requires forall e :: e in es ==> ' ' !in e.0
    ensures forall p :: p in NonZeroParts(es) ==>
      ' ' !in p && exists e :: e in es && e.1 != 0 && p == IntToString(e.1) + e.0
  {
    if es != [] {
      var init := es[..|es| - 1];
      assert forall e :: e in init ==> e in es;
      PartsAreNonZeroEntries(init);
    }
  }

  /** Joining space-free parts puts exactly one space between neighbours. */
  lemma {:induction false} JoinSpaces(parts: seq<string>)
    requires parts != []
    requires forall p :: p in parts ==> ' ' !in p
    ensures Spaces(Join(parts, " ")) == |parts| - 1
  {
    SpacesNone(parts[0]);
    if |parts| > 1 {
      JoinSpaces(parts[1..]);
      SpacesAppend(parts[0], " ");
      SpacesAppend(parts[0] + " ", Join(parts[1..], " "));
    }
  }

  /**
   * `DurationToString(t, length)` with `length >= 0` has at most `length`
   * parts: fewer than `length` spaces, none at all when nothing is non-zero.
   */
  lemma AtMostLengthParts(t: Ymdh, length: int)
    requires length > 0
    ensures Spaces(Join(SliceFront(NonZeroParts(Entries(t)), length), " ")) < length
  {
    var es := Entries(t);
    var kept := SliceFront(NonZeroParts(es), length);
    if kept != [] {
      PartsAreNonZeroEntries(es);
      assert forall p :: p in kept ==> p in NonZeroParts(es);
      JoinSpaces(kept);
    }
  }

  // ---------------------------------------------------------------------------
  // checkLinkActive / isGivEconomyRoute

  /** `giveconomyTabs.find(tab => tab.href === route)`, as the index found. */
  function FindTab(tabHrefs: seq<string>, route: string): (r: Option<nat>)
    ensures r.Some? ==>
      && r.value < |tabHrefs| && tabHrefs[r.value] == route
      && (forall j :: 0 <= j < r.value ==> tabHrefs[j] != route)
    ensures r.None? ==> route !in tabHrefs
  {
    if tabHrefs == [] then None
    else if tabHrefs[0] == route then Some(0)
    else match FindTab(tabHrefs[1..], route)
      case None => None
      case Some(k) => Some(k + 1)
  }

  /** `isGivEconomyRoute`: some GIVeconomy tab links to `route`. */
  function IsGivEconomyRoute(route: string, tabHrefs: seq<string>): (r: bool)
    ensures r <==> route in tabHrefs
  {
    FindTab(tabHrefs, route).Some?
  }

  /**
   * `checkLinkActive`: a link is active on its own route; the GIVeconomy link
   * is also active on every GIVeconomy tab's route.
   */
  function CheckLinkActive(route: string, href: string, giveconomyRoute: string, tabHrefs: seq<string>): (r: bool)
    ensures route == href ==> r
    ensures href != giveconomyRoute ==> (r <==> route == href)
    ensures href == giveconomyRoute ==> (r <==> route == href || route in tabHrefs)
  {
    if route == href then true
    else if href == giveconomyRoute then IsGivEconomyRoute(route, tabHrefs)
    else false
  }

  // ---------------------------------------------------------------------------
  // getSafeUrl / transactionLink

  const SafeUrlMainnet := "https://safe-transaction.gnosis.io/api/v1/"
  const SafeUrlXDai := "https://safe-transaction.xdai.gnosis.io/api/v1/"

  /** `getSafeUrl`: the Safe transaction service of chain 1 or 100; empty for any other chain. */
  function GetSafeUrl(hash: string, chainId: int): (url: string)
    ensures chainId == 1 ==> url == SafeUrlMainnet
    ensures chainId == 100 ==> url == SafeUrlXDai
    ensures url != "" <==> chainId == 1 || chainId == 100
  {
    match chainId
    case 1 => SafeUrlMainnet
    case 100 => SafeUrlXDai
    case _ => ""
  }

  /** The part of a network's parameters that `transactionLink` reads. */
  datatype NetworkParams = NetworkParams(blockExplorerUrls: seq<string>)

  /** `${blockExplorerUrls[0]}`: an empty list yields `undefined`. */
  function ExplorerBase(p: NetworkParams): string {
    if p.blockExplorerUrls == [] then "undefined" else p.blockExplorerUrls[0]
  }

  /** `transactionLink`: empty for an unknown network, else the explorer's `/tx/` page of the hash. */
  function TransactionLink(networkId: int, txHash: string, networksParams: map<int, NetworkParams>): (r: string)
    ensures networkId !in networksParams ==> r == ""
    ensures networkId in networksParams ==>
      && |r| >= |txHash| + 4
      && r[..|r| - |txHash| - 4] == ExplorerBase(networksParams[networkId])
      && r[|r| - |txHash| - 4..] == "/tx/" + txHash
  {
    if networkId !in networksParams then ""
    else
      var base := ExplorerBase(networksParams[networkId]);
      var r := base + "/tx/" + txHash;
      assert r[..|base|] == base;
      assert r[|base|..] == "/tx/" + txHash;
      r
  }
}
