/**
 * Trust-domain extraction: the authority of a `spiffe://` URI, as in
 * section 2 of the SPIFFE-ID standard.
 */
module TrustDomain {

  const SpiffePrefix: string := "spiffe://"

  predicate StartsWith(s: string, prefix: string)
  {
    |prefix| <= |s| && s[..|prefix|] == prefix
  }

  /** The text of `s` before its first '/', or all of `s` when it holds no '/'. */
  function UpToSlash(s: string): (r: string)
    ensures r <= s && '/' !in r
    ensures |r| == |s| || s[|r|] == '/'
  {
    if s == [] || s[0] == '/' then [] else [s[0]] + UpToSlash(s[1..])
  }

  /**
   * extractTrustDomain: empty for a string that does not start with
   * `spiffe://`; otherwise the text between the prefix and the first
   * following '/', or everything after the prefix when there is no '/'.
   */
  function ExtractTrustDomain(san: string): (r: string)
    ensures !StartsWith(san, SpiffePrefix) ==> r == ""
    ensures StartsWith(san, SpiffePrefix) ==>
              var rest := san[|SpiffePrefix|..];
              r <= rest && (|r| == |rest| || rest[|r|] == '/')
    ensures '/' !in r
  {
    if !StartsWith(san, SpiffePrefix) then "" else UpToSlash(san[|SpiffePrefix|..])
  }

  /** The three properties of UpToSlash determine its result: any slash-free prefix ending at a '/' or at the end is it. */
  lemma UpToSlashUnique(s: string, t: string)
    requires t <= s && '/' !in t
    requires |t| == |s| || s[|t|] == '/'
    ensures t == UpToSlash(s)
  {
    var r := UpToSlash(s);
    assert |t| == |r|;
    assert t == s[..|t|] && r == s[..|r|];
  }

  /**
   * Round trip with the SPIFFE ID syntax: the trust domain of
   * `spiffe://<td><path>` is `td`, for a slash-free `td` and a path that is
   * empty or starts with '/'.
   */
  lemma ExtractFromSpiffeId(td: string, path: string)
    requires '/' !in td
    requires path == [] || path[0] == '/'
    ensures ExtractTrustDomain(SpiffePrefix + td + path) == td
  {
    var san := SpiffePrefix + td + path;
    assert san[..|SpiffePrefix|] == SpiffePrefix;
    assert san[|SpiffePrefix|..] == td + path;
    UpToSlashUnique(td + path, td);
  }

  /** The worked examples: a path is dropped, a bare authority is kept, another scheme yields "". */
  lemma ExtractExamples()
    ensures ExtractTrustDomain("spiffe://example.org/svc") == "example.org"
    ensures ExtractTrustDomain("spiffe://example.org") == "example.org"
    ensures ExtractTrustDomain("https://example.org") == ""
  {
    ExtractWithPath();
    ExtractWithoutPath();
    var https := "https://example.org";
    assert https[0] != SpiffePrefix[0];
  }

  lemma ExtractWithPath()
    ensures ExtractTrustDomain("spiffe://example.org/svc") == "example.org"
  {
    var san, rest, td := "spiffe://example.org/svc", "example.org/svc", "example.org";
    assert san[..|SpiffePrefix|] == SpiffePrefix;
    assert san[|SpiffePrefix|..] == rest;
    assert rest[..|td|] == td && rest[|td|] == '/';
    UpToSlashUnique(rest, td);
  }

  lemma ExtractWithoutPath()
    ensures ExtractTrustDomain("spiffe://example.org") == "example.org"
  {
    var san, td := "spiffe://example.org", "example.org";
    assert san[..|SpiffePrefix|] == SpiffePrefix;
    assert san[|SpiffePrefix|..] == td;
    UpToSlashUnique(td, td);
  }
}
