/**
 Equivalent domains, label by label (packages/shared/domain-normalize.ts). What the URL parser and
 its fallback make of an arbitrary input is a parameter; what they make of a valid host is fixed by
 the WHATWG URL Standard: the host itself, unless it reads as an IPv4 address.
 */
module Hosts {
  import opened Options

  /** The listed suffixes, each of two labels: what may stand before the last one. */
  function PublicSuffixHeads(last: string): set<string> {
    match last
    case "cn" => {
      "ac", "com", "edu", "gov", "net", "org", "ah", "bj", "cq", "fj", "gd", "gs", "gx", "gz", "ha", "hb", "he", "hi", "hk",
      "hl", "hn", "jl", "js", "jx", "ln", "mo", "nm", "nx", "qh", "sc", "sd", "sh", "sn", "sx", "tj", "tw", "xj", "xz", "yn",
      "zj"}
    case "uk" => {"co", "org", "net", "ac", "gov"}
    case "au" => {"com", "net", "org", "edu", "gov"}
    case "nz" => {"co", "org", "net"}
    case "br" => {"com"}
    case "mx" => {"com"}
    case "ar" => {"com"}
    case "tr" => {"com"}
    case "sg" => {"com"}
    case "my" => {"com"}
    case "hk" => {"com"}
    case "tw" => {"com"}
    case "jp" => {"co", "ne", "or"}
    case "kr" => {"co", "or"}
    case "in" => {"co", "firm", "net", "org"}
    case "id" => {"co", "or", "web"}
    case "il" => {"co", "org"}
    case "za" => {"co"}
    case "sa" => {"com"}
    case "ph" => {"com"}
    case "vn" => {"com"}
    case "pk" => {"com"}
    case "bd" => {"com"}
    case "ng" => {"com"}
    case "io" => {"github"}
    case "dev" => {"pages", "workers", "fly"}
    case "com" => {"cloudflareaccess", "firebaseapp", "herokuapp", "render", "onrender"}
    case "app" => {"vercel", "netlify", "web", "railway"}
    case _ => {}
  }

  // ---------------------------------------------------------------------------------------
  // Labels
  // ---------------------------------------------------------------------------------------

  predicate Plain(part: string) {
    '.' !in part
  }

  function Join(labels: seq<string>): (s: string)
    requires labels != []
  {
    if |labels| == 1 then labels[0] else labels[0] + "." + Join(labels[1..])
  }

  /** Position of the first dot, or the length. */
  function DotAt(s: string): (i: nat)
    ensures i <= |s| && '.' !in s[..i] && (i < |s| ==> s[i] == '.')
  {
    if s == "" || s[0] == '.' then 0
    else
      var i := 1 + DotAt(s[1..]);
      assert s[..i] == [s[0]] + s[1..][..i - 1];
      i
  }

  function Split(s: string): (labels: seq<string>)
    ensures labels != [] && forall i :: 0 <= i < |labels| ==> Plain(labels[i])
    decreases |s|
  {
    var i := DotAt(s);
    if i == |s| then
      assert s[..i] == s;
      [s]
    else [s[..i]] + Split(s[i + 1..])
  }

  lemma {:induction false} JoinSplit(s: string)
    ensures Join(Split(s)) == s
    decreases |s|
  {
    var i := DotAt(s);
    if i < |s| {
      JoinSplit(s[i + 1..]);
      assert s == s[..i] + "." + s[i + 1..];
    }
  }

  lemma DotAtUnique(part: string, rest: string)
    requires Plain(part)
    ensures DotAt(part) == |part| && DotAt(part + "." + rest) == |part|
    decreases |part|
  {
    assert part[..|part|] == part;
    var s := part + "." + rest;
    var i := DotAt(s);
    assert s[|part|] == '.';
  }

  lemma {:induction false} SplitJoin(labels: seq<string>)
    requires labels != [] && forall i :: 0 <= i < |labels| ==> Plain(labels[i])
    ensures Split(Join(labels)) == labels
    decreases |labels|
  {
    DotAtUnique(labels[0], "");
    if |labels| > 1 {
      var rest := Join(labels[1..]);
      SplitJoin(labels[1..]);
      DotAtUnique(labels[0], rest);
      assert Join(labels)[..|labels[0]|] == labels[0];
      assert Join(labels)[|labels[0]| + 1..] == rest;
    }
  }

  lemma {:induction false} JoinSuffixShorter(labels: seq<string>, i: nat)
    requires i < |labels|
    ensures |Join(labels[i..])| <= |Join(labels)|
    decreases i
  {
    if i > 0 {
      JoinSuffixShorter(labels[1..], i - 1);
      assert labels[1..][i - 1..] == labels[i..];
    } else {
      assert labels[0..] == labels;
    }
  }

  // ---------------------------------------------------------------------------------------
  // Valid hosts
  // ---------------------------------------------------------------------------------------

  predicate IsDigit(c: char) {
    '0' <= c <= '9'
  }

  predicate IsAlphanumeric(c: char) {
    IsDigit(c) || 'a' <= c <= 'z'
  }

  predicate IsSpace(c: char) {
    c == ' ' || '\t' <= c <= '\r' || c == '\U{00a0}' || c == '\U{1680}' || '\U{2000}' <= c <= '\U{200a}' || c == '\U{2028}'
    || c == '\U{2029}' || c == '\U{202f}' || c == '\U{205f}' || c == '\U{3000}' || c == '\U{feff}'
  }

  predicate LabelOk(part: string) {
    && 1 <= |part| <= 63
    && IsAlphanumeric(part[0])
    && IsAlphanumeric(part[|part| - 1])
    && (forall i :: 0 <= i < |part| ==> IsAlphanumeric(part[i]) || part[i] == '-')
  }

  predicate OctetLike(part: string) {
    1 <= |part| <= 3 && forall i :: 0 <= i < |part| ==> IsDigit(part[i])
  }

  /** Four groups of one to three digits. */
  predicate QuadLike(labels: seq<string>) {
    |labels| == 4 && OctetLike(labels[0]) && OctetLike(labels[1]) && OctetLike(labels[2]) && OctetLike(labels[3])
  }

  predicate IsValidHost(host: string) {
    && host != "" && |host| <= 253 && '.' in host
    && !(exists i :: 0 <= i < |host| - 1 && host[i] == '.' && host[i + 1] == '.')
    && !(exists i :: 0 <= i < |host| && (host[i] == ':' || host[i] == '/' || IsSpace(host[i])))
    && !QuadLike(Split(host))
    && (forall i :: 0 <= i < |Split(host)| ==> LabelOk(Split(host)[i]))
  }

  predicate LabelsOk(labels: seq<string>) {
    forall i :: 0 <= i < |labels| ==> LabelOk(labels[i])
  }

  /** A join of good labels has no character that a host may not have and no empty label. */
  lemma {:induction false} JoinIsClean(labels: seq<string>)
    requires labels != [] && LabelsOk(labels)
    ensures var host := Join(labels);
            && host != "" && host[0] != '.'
            && (forall i :: 0 <= i < |host| ==> IsAlphanumeric(host[i]) || host[i] == '-' || host[i] == '.')
            && (forall i :: 0 <= i < |host| - 1 ==> host[i] != '.' || host[i + 1] != '.')
            && (|labels| > 1 ==> '.' in host)
    decreases |labels|
  {
    if |labels| > 1 {
      JoinIsClean(labels[1..]);
      var head, rest := labels[0], Join(labels[1..]);
      var host := Join(labels);
      assert host == head + "." + rest;
      assert host[|head|] == '.';
      forall i | 0 <= i < |host| - 1
        ensures host[i] != '.' || host[i + 1] != '.'
      {
        if i > |head| {
          assert host[i] == rest[i - |head| - 1] && host[i + 1] == rest[i - |head|];
        }
      }
    }
  }

  /** A letter or digit, or a hyphen inside. */
  lemma LabelOkIff(part: string)
    ensures LabelOk(part) <==>
              && 1 <= |part| <= 63 && part[0] != '-' && part[|part| - 1] != '-'
              && forall i :: 0 <= i < |part| ==> part[i] == '-' || 'a' <= part[i] <= 'z' || '0' <= part[i] <= '9'
  {
  }

  /** What the tests on the whole string add to the labels: at least two of them, not a dotted quad, not too long. */
  lemma ValidHostIffLabels(labels: seq<string>)
    requires labels != [] && forall i :: 0 <= i < |labels| ==> Plain(labels[i])
    ensures IsValidHost(Join(labels)) <==>
              |labels| >= 2 && LabelsOk(labels) && !QuadLike(labels) && |Join(labels)| <= 253
  {
    hide LabelOk, QuadLike, Split;
    SplitJoin(labels);
    if LabelsOk(labels) {
      JoinIsClean(labels);
    }
  }

  // ---------------------------------------------------------------------------------------
  // The registrable domain
  // ---------------------------------------------------------------------------------------

  predicate Listed(labels: seq<string>) {
    |labels| == 2 && labels[0] in PublicSuffixHeads(labels[1])
  }

  /** The longest listed suffix starts here; the length if none is listed. */
  function LongestListed(labels: seq<string>): (i: nat)
    ensures i <= |labels|
    ensures i < |labels| ==> Listed(labels[i..])
    ensures forall j :: 0 <= j < i ==> !Listed(labels[j..])
    decreases |labels|
  {
    hide *;
    if labels == [] then 0
    else if Listed(labels) then
      assert labels[0..] == labels;
      0
    else
      var i := 1 + LongestListed(labels[1..]);
      assert forall j :: 1 <= j < |labels| ==> labels[j..] == labels[1..][j - 1..];
      assert labels[0..] == labels;
      i
  }

  /** One label more than the longest listed suffix, or two labels; nothing for a listed suffix itself. */
  function Registrable(labels: seq<string>): (kept: seq<string>) {
    var i := LongestListed(labels);
    if i == 0 then []
    else if i < |labels| then labels[i - 1..]
    else if |labels| >= 2 then labels[|labels| - 2..]
    else []
  }

  function NormalizeHost(host: string): string {
    if !IsValidHost(host) then ""
    else
      var kept := Registrable(Split(host));
      if kept == [] then "" else Join(kept)
  }

  /** The loop over the suffixes, longest first, with its early returns. */
  method NormalizeExtractedHost(host: string) returns (domain: string)
    ensures domain == NormalizeHost(host)
  {
    hide IsValidHost, Split, Join, LongestListed, PublicSuffixHeads;
    if !IsValidHost(host) {
      return "";
    }
    var labels := Split(host);
    var index := 0;
    while index < |labels|
      invariant 0 <= index <= |labels|
      invariant index <= LongestListed(labels)
    {
      var suffix := labels[index..];
      if |suffix| == 2 && suffix[0] in PublicSuffixHeads(suffix[1]) {
        assert Listed(suffix);
        return if index == 0 then "" else Join(labels[index - 1..]);
      }
      index := index + 1;
    }
    return if |labels| >= 2 then Join(labels[|labels| - 2..]) else "";
  }

  /** What is kept has one listed suffix at most, all of it but the first label, so keeping is idempotent. */
  lemma RegistrableIsStable(labels: seq<string>)
    requires Registrable(labels) != []
    ensures var kept := Registrable(labels);
            && 2 <= |kept| <= |labels|
            && Registrable(kept) == kept
            && !Listed(kept)
            && (|kept| > 2 ==> Listed(kept[1..]))
            && kept == labels[|labels| - |kept|..]
            && (forall j :: 0 <= j < |labels| && Listed(labels[j..]) ==> |labels| - |kept| < j)
  {
  }

  /** The result is a valid host again, and normalises to itself. */
  lemma NormalizedHostIsStable(host: string)
    requires NormalizeHost(host) != ""
    ensures var domain := NormalizeHost(host);
            IsValidHost(domain) && NormalizeHost(domain) == domain && 2 <= |Split(domain)| <= 3
  {
    hide IsValidHost, Split, Join, Registrable, LabelOk, PublicSuffixHeads;
    var labels := Split(host);
    var kept := Registrable(labels);
    JoinSplit(host);
    ValidHostIffLabels(labels);
    RegistrableIsStable(labels);
    assert forall i :: 0 <= i < |kept| ==> kept[i] == labels[|labels| - |kept| + i];
    SplitJoin(kept);
    JoinSuffixShorter(labels, |labels| - |kept|);
    ValidHostIffLabels(kept);
  }

  // ---------------------------------------------------------------------------------------
  // Hosts that read as IPv4 addresses (WHATWG URL Standard, section 3.5)
  // ---------------------------------------------------------------------------------------

  function DigitValue(c: char): Option<nat> {
    if '0' <= c <= '9' then Some((c - '0') as nat)
    else if 'a' <= c <= 'f' then Some((c - 'a') as nat + 10)
    else None
  }

  function ParseRadix(digits: string, radix: nat): Option<nat>
    decreases |digits|
  {
    if digits == "" then Some(0)
    else
      var high, low := ParseRadix(digits[..|digits| - 1], radix), DigitValue(digits[|digits| - 1]);
      if high.Some? && low.Some? && low.value < radix then Some(high.value * radix + low.value) else None
  }

  /** Decimal, or octal after "0", or hexadecimal after "0x"; a bare prefix is zero. */
  function ParseIpv4Number(part: string): Option<nat> {
    if part == "" then None
    else if |part| >= 2 && part[..2] == "0x" then ParseRadix(part[2..], 16)
    else if |part| >= 2 && part[0] == '0' then ParseRadix(part[1..], 8)
    else ParseRadix(part, 10)
  }

  predicate EndsInNumber(labels: seq<string>)
    requires labels != []
  {
    var last := labels[|labels| - 1];
    (last != "" && forall i :: 0 <= i < |last| ==> IsDigit(last[i])) || ParseIpv4Number(last).Some?
  }

  function Pow256(n: nat): nat {
    if n == 0 then 1 else 256 * Pow256(n - 1)
  }

  /** The IPv4 parser takes the host: at most four numbers, all but the last below 256 and the last in what room is left. */
  predicate ReadsAsIpv4(labels: seq<string>)
    requires labels != []
  {
    && EndsInNumber(labels)
    && |labels| <= 4
    && (forall i :: 0 <= i < |labels| ==> ParseIpv4Number(labels[i]).Some?)
    && (forall i :: 0 <= i < |labels| - 1 ==> ParseIpv4Number(labels[i]).value <= 255)
    && ParseIpv4Number(labels[|labels| - 1]).value < Pow256(5 - |labels|)
  }

  /**
   What extracting the host makes of a host that is already valid. An IPv4 address comes back as a
   dotted quad; when the parser fails, on a number it cannot read, the fallback keeps the host.
   */
  ghost predicate ExtractsHosts(extract: string -> string) {
    && extract("") == ""
    && (forall host :: IsValidHost(host) ==>
          if ReadsAsIpv4(Split(host)) then QuadLike(Split(extract(host))) else extract(host) == host)
  }

  function NormalizeEquivalentDomain(extract: string -> string, value: string): string {
    NormalizeHost(extract(value))
  }

  /** A result is kept by a second normalisation, or dropped if it reads as an IPv4 address; it never becomes another. */
  lemma NormalizeAgain(extract: string -> string, value: string)
    requires ExtractsHosts(extract)
    ensures var domain := NormalizeEquivalentDomain(extract, value);
            NormalizeEquivalentDomain(extract, domain) ==
            if domain != "" && ReadsAsIpv4(Split(domain)) then "" else domain
  {
    hide Registrable;
    var domain := NormalizeEquivalentDomain(extract, value);
    if domain != "" {
      NormalizedHostIsStable(extract(value));
      if ReadsAsIpv4(Split(domain)) {
        AddressesAreInvalid(extract, domain);
      }
    }
  }

  /** Normalisation is idempotent on exactly the inputs whose extracted host keeps no labels that read as an IPv4 address. */
  lemma NormalizeIsIdempotentIff(extract: string -> string, value: string)
    requires ExtractsHosts(extract)
    ensures var domain, kept := NormalizeEquivalentDomain(extract, value), Registrable(Split(extract(value)));
            NormalizeEquivalentDomain(extract, domain) == domain
            <==> !(IsValidHost(extract(value)) && kept != [] && ReadsAsIpv4(kept))
  {
    hide ExtractsHosts, ReadsAsIpv4, LongestListed, Listed, LabelOk;
    var host := extract(value);
    NormalizeAgain(extract, value);
    if IsValidHost(host) && Registrable(Split(host)) != [] {
      NormalizedLabels(host);
    } else {
      assert NormalizeEquivalentDomain(extract, value) == "";
    }
  }

  /** The labels of the result are the labels that were kept. */
  lemma NormalizedLabels(host: string)
    requires IsValidHost(host) && Registrable(Split(host)) != []
    ensures NormalizeHost(host) != "" && Split(NormalizeHost(host)) == Registrable(Split(host))
  {
    hide IsValidHost, Split, Join, Registrable, LabelOk, PublicSuffixHeads;
    var labels := Split(host);
    var kept := Registrable(labels);
    JoinSplit(host);
    ValidHostIffLabels(labels);
    RegistrableIsStable(labels);
    assert forall i :: 0 <= i < |kept| ==> kept[i] == labels[|labels| - |kept| + i];
    SplitJoin(kept);
    JoinIsClean(kept);
  }

  lemma LastTwoLabels(a: string, b: string, c: string)
    requires PublicSuffixHeads(c) == {}
    ensures Registrable([a, b, c]) == [b, c]
  {
  }

  lemma SingleCharacters(c: char)
    requires IsAlphanumeric(c)
    ensures LabelOk([c]) && Plain([c])
    ensures ParseIpv4Number([c]) == if IsDigit(c) then Some((c - '0') as nat) else None
  {
    assert [c][..0] == "";
    assert ParseRadix("", 10) == Some(0);
    assert ParseIpv4Number([c]) == ParseRadix([c], 10);
    if !IsDigit(c) {
      assert DigitValue(c).Some? ==> DigitValue(c).value >= 10;
    }
  }

  /** The IPv4 parser rejects a.1.2, so it is kept as it is and normalises to 1.2, which is an address and so no domain. */
  lemma NormalizeTwiceDiffers(extract: string -> string)
    requires ExtractsHosts(extract)
    ensures NormalizeEquivalentDomain(extract, "a.1.2") == "1.2"
    ensures NormalizeEquivalentDomain(extract, "1.2") == ""
  {
    hide Split, IsValidHost, LabelOk, Registrable, ParseIpv4Number, Plain, LongestListed, Listed, PublicSuffixHeads;
    SingleCharacters('a');
    SingleCharacters('1');
    SingleCharacters('2');
    var kept := ["1", "2"];
    var labels := ["a"] + kept;
    assert labels[1..] == kept && kept[1..] == ["2"];
    assert Join(kept) == "1.2";
    assert Join(labels) == "a.1.2";
    assert EndsInNumber(kept) && ReadsAsIpv4(kept) && !ReadsAsIpv4(labels);
    SplitJoin(labels);
    SplitJoin(kept);
    ValidHostIffLabels(labels);
    ValidHostIffLabels(kept);
    SingleCharactersHaveNoSuffixes('2');
    assert ['2'] == "2";
    LastTwoLabels("a", "1", "2");
    assert labels == ["a", "1", "2"];
    AddressesAreInvalid(extract, "1.2");
  }

  lemma AddressesAreInvalid(extract: string -> string, host: string)
    requires ExtractsHosts(extract) && IsValidHost(host) && ReadsAsIpv4(Split(host))
    ensures NormalizeEquivalentDomain(extract, host) == ""
  {
  }

  lemma OrdinaryDomainStays(extract: string -> string, c: char)
    requires ExtractsHosts(extract) && 'a' <= c <= 'z'
    ensures NormalizeEquivalentDomain(extract, "a." + [c]) == "a." + [c]
  {
    hide Split, IsValidHost, LabelOk, ParseIpv4Number, Plain, LongestListed, PublicSuffixHeads;
    SingleCharacters('a');
    SingleCharacters(c);
    var labels := ["a", [c]];
    assert labels[1..] == [[c]];
    assert Join(labels) == "a." + [c];
    SplitJoin(labels);
    ValidHostIffLabels(labels);
    SingleCharactersHaveNoSuffixes(c);
    var i := LongestListed(labels);
    assert labels[0..] == labels;
    assert i < 2 ==> Listed(labels[i..]);
    assert Registrable(labels) == labels;
  }

  lemma SingleCharactersHaveNoSuffixes(c: char)
    ensures PublicSuffixHeads([c]) == {}
  {
    assert |[c]| == 1;
  }
}
