/** `DeviceFingerprint`: the hash pre-image built from six request
    components, the fingerprint, and the header-consistency analysis. */
module Fingerprint {
  import opened Js
  import opened Text
  import opened UaParser

  /** Request headers: lower-case names to string values. */
  type Headers = map<string, string>

  /** `headers[name]`. */
  function Header(headers: Headers, name: string): Option<string>
  {
    if name in headers then Some(headers[name]) else None
  }

  const SEPARATOR: char := '|'
  const HEX_DIGITS: string := "0123456789abcdef"

  predicate IsLowerHexDigest(s: string) {
    |s| == 64 && forall i :: 0 <= i < |s| ==> s[i] in HEX_DIGITS
  }

  /** What `digest('hex')` of a SHA-256 hash returns: 64 lower-case hex
      digits. The hash function itself is a parameter of type
      `string -> Digest`, about which nothing else is assumed. */
  type Digest = s: string | IsLowerHexDigest(s) witness seq(64, _ => '0')

  /** The six components, in their fixed order; `ip` fills the fourth slot. */
  function Components(headers: Headers, ip: Option<string>): seq<Option<string>> {
    [ Header(headers, "user-agent"),
      Header(headers, "accept-language"),
      Header(headers, "accept-encoding"),
      ip,
      Header(headers, "sec-ch-ua"),
      Header(headers, "sec-ch-ua-platform") ]
  }

  /** `components.filter(Boolean)`: the truthy components, in order. */
  function KeepTruthy(cs: seq<Option<string>>): (kept: seq<string>)
    ensures |kept| <= |cs|
    ensures forall i :: 0 <= i < |kept| ==> kept[i] != ""
  {
    if cs == [] then []
    else (if Truthy(OfOption(cs[0])) then [cs[0].value] else []) + KeepTruthy(cs[1..])
  }

  /** `filter(Boolean)` is a filter: one slot is kept exactly when it is
      truthy, and filtering a concatenation concatenates the filtered
      parts. Together these fix every kept value, its multiplicity and its
      position in slot order. */
  lemma {:induction false} KeepTruthyIsFilter(c: Option<string>, a: seq<Option<string>>, b: seq<Option<string>>)
    ensures KeepTruthy([c]) == if Truthy(OfOption(c)) then [c.value] else []
    ensures KeepTruthy(a + b) == KeepTruthy(a) + KeepTruthy(b)
  {
    assert [c][1..] == [];
    if a == [] {
      assert a + b == b;
    } else {
      KeepTruthyIsFilter(c, a[1..], b);
      assert (a + b)[0] == a[0] && (a + b)[1..] == a[1..] + b;
    }
  }

  /** A value is kept exactly when it is a non-empty string in some slot. */
  lemma {:induction false} KeptIff(cs: seq<Option<string>>, s: string)
    ensures s in KeepTruthy(cs) <==> s != "" && Some(s) in cs
  {
    if cs != [] {
      KeptIff(cs[1..], s);
      assert cs == [cs[0]] + cs[1..];
    }
  }

  /** Nothing is kept exactly when every slot is falsy. */
  lemma {:induction false} KeptNone(cs: seq<Option<string>>)
    ensures KeepTruthy(cs) == [] <==> forall i :: 0 <= i < |cs| ==> !Truthy(OfOption(cs[i]))
  {
    if cs != [] {
      KeptNone(cs[1..]);
      assert forall i :: 1 <= i < |cs| ==> cs[i] == cs[1..][i - 1];
    }
  }

  /** The string that is hashed: the truthy components joined by `|`.
      It is empty exactly when all six components are absent or empty. */
  function PreImage(headers: Headers, ip: Option<string>): (s: string)
    ensures s == "" <==> forall i :: 0 <= i < 6 ==> !Truthy(OfOption(Components(headers, ip)[i]))
  {
    var kept := KeepTruthy(Components(headers, ip));
    KeptNone(Components(headers, ip));
    JoinEmpty(kept, SEPARATOR);
    Join(kept, SEPARATOR)
  }

  /** `DeviceFingerprint.generate({headers, ip})`. */
  function Generate(headers: Headers, ip: Option<string>, sha256: string -> Digest): Digest {
    sha256(PreImage(headers, ip))
  }

  /** No component holds the separator. */
  predicate NoSeparator(headers: Headers, ip: Option<string>) {
    forall i :: 0 <= i < 6 ==> !(Components(headers, ip)[i].Some? && SEPARATOR in Components(headers, ip)[i].value)
  }

  /** When no component holds `|`, the pre-image gives back the kept values
      in order; it does not say which slot each came from. */
  lemma PreImageDecodes(headers: Headers, ip: Option<string>)
    requires NoSeparator(headers, ip)
    ensures Unjoin(PreImage(headers, ip), SEPARATOR) == KeepTruthy(Components(headers, ip))
  {
    var cs := Components(headers, ip);
    var kept := KeepTruthy(cs);
    forall i | 0 <= i < |kept|
      ensures kept[i] != "" && SEPARATOR !in kept[i]
    {
      KeptIff(cs, kept[i]);
    }
    UnjoinJoin(kept, SEPARATOR);
  }

  /** Two such requests share a pre-image exactly when they keep the same
      values in the same order, whatever slots those values sit in. */
  lemma PreImagesCollideIff(h1: Headers, ip1: Option<string>, h2: Headers, ip2: Option<string>)
    requires NoSeparator(h1, ip1) && NoSeparator(h2, ip2)
    ensures PreImage(h1, ip1) == PreImage(h2, ip2)
        <==> KeepTruthy(Components(h1, ip1)) == KeepTruthy(Components(h2, ip2))
  {
    PreImageDecodes(h1, ip1);
    PreImageDecodes(h2, ip2);
  }

  /** A request carrying only `user-agent: x` and one carrying only
      `accept-language: x` get the same fingerprint. */
  lemma SlotCollision(sha256: string -> Digest)
    ensures var onlyAgent: Headers := map["user-agent" := "x"];
            var onlyLanguage: Headers := map["accept-language" := "x"];
            onlyAgent != onlyLanguage
            && Generate(onlyAgent, None, sha256) == Generate(onlyLanguage, None, sha256)
  {
    var onlyAgent: Headers := map["user-agent" := "x"];
    var onlyLanguage: Headers := map["accept-language" := "x"];
    assert "user-agent" !in onlyLanguage;
    assert KeepTruthy(Components(onlyAgent, None)) == ["x"];
    assert KeepTruthy(Components(onlyLanguage, None)) == ["x"];
  }

  /** The separator is not escaped: `user-agent: a|b` alone and
      `user-agent: a` with `accept-language: b` get the same fingerprint. */
  lemma SeparatorCollision(sha256: string -> Digest)
    ensures var joined: Headers := map["user-agent" := "a|b"];
            var split: Headers := map["user-agent" := "a", "accept-language" := "b"];
            joined != split
            && Generate(joined, None, sha256) == Generate(split, None, sha256)
  {
    var joined: Headers := map["user-agent" := "a|b"];
    var split: Headers := map["user-agent" := "a", "accept-language" := "b"];
    assert "accept-language" !in joined;
    assert KeepTruthy(Components(joined, None)) == ["a|b"];
    assert KeepTruthy(Components(split, None)) == ["a", "b"];
    assert Join(["a", "b"], SEPARATOR) == "a" + [SEPARATOR] + "b" == "a|b";
  }

  /** The names of the five headers among the components. */
  const COMPONENT_HEADERS: set<string> :=
    {"user-agent", "accept-language", "accept-encoding", "sec-ch-ua", "sec-ch-ua-platform"}

  /** The fingerprint depends on the five component headers and the ip
      only: other headers make no difference. */
  lemma GenerateIgnoresOtherHeaders(h1: Headers, h2: Headers, ip: Option<string>, sha256: string -> Digest)
    requires forall n :: n in COMPONENT_HEADERS ==> Header(h1, n) == Header(h2, n)
    ensures Generate(h1, ip, sha256) == Generate(h2, ip, sha256)
  {
    assert Components(h1, ip) == Components(h2, ip);
  }

  /** The inconsistency tags `analyzeHeaders` reports: `MissingEncoding` is
      the string `missing_encoding`, `InvalidBrowserOs` the string
      `invalid_browser_os`. */
  datatype Inconsistency = MissingEncoding | InvalidBrowserOs

  datatype Analysis = Analysis(fingerprint: Digest, inconsistencies: seq<Inconsistency>, browserProfile: UaResult)

  /** `DeviceFingerprint.analyzeHeaders(headers)`. */
  method AnalyzeHeaders(headers: Headers, parse: Parser, sha256: string -> Digest) returns (a: Analysis)
    ensures a.browserProfile == parse(OfOption(Header(headers, "user-agent")))
    ensures MissingEncoding in a.inconsistencies
        <==> Truthy(OfOption(Header(headers, "accept-language")))
             && !Truthy(OfOption(Header(headers, "accept-encoding")))
    ensures InvalidBrowserOs in a.inconsistencies
        <==> Name(a.browserProfile.os) == Some("Windows") && Name(a.browserProfile.browser) == Some("Safari")
    ensures |a.inconsistencies| <= 2
    ensures forall i, j :: 0 <= i < j < |a.inconsistencies| ==> a.inconsistencies[i] != a.inconsistencies[j]
    ensures |a.inconsistencies| == 2 ==> a.inconsistencies[0] == MissingEncoding
    ensures a.fingerprint == Generate(headers, Header(headers, "x-forwarded-for"), sha256)
  {
    var result := parse(OfOption(Header(headers, "user-agent")));
    var inconsistencies: seq<Inconsistency> := [];
    if Truthy(OfOption(Header(headers, "accept-language")))
       && !Truthy(OfOption(Header(headers, "accept-encoding")))
    {
      inconsistencies := inconsistencies + [MissingEncoding];
    }
    if Name(result.os) == Some("Windows") && Name(result.browser) == Some("Safari") {
      inconsistencies := inconsistencies + [InvalidBrowserOs];
    }
    var fingerprint := Generate(headers, Header(headers, "x-forwarded-for"), sha256);
    a := Analysis(fingerprint, inconsistencies, result);
  }
}
