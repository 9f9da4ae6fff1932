/**
 * The storage-URL parser of osmosis_azure_driver/utils.py.
 *
 * A locator URL has the shape
 *   https://<account>.<file_type>.core.windows.net/<container_or_share>[/<path>]/<file>
 * The parser drops the first eight characters without looking at them,
 * splits the rest on '/', and reads the fields off fixed segment positions.
 * It validates nothing: a short URL makes Python's indexing raise
 * IndexError, which is the one error modelled here.
 */
module Utils {
  import opened Wrappers
  import opened PyStrings

  /** The `azure_parameters` record: account, file_type, container_or_share_name, path, file. */
  datatype AzureParameters = AzureParameters(
    account: string,
    fileType: string,
    containerOrShareName: string,
    path: Option<string>,
    file: string)

  /** The only way the parser fails: a list index out of range. */
  datatype ParseError = IndexError

  /** What `url[8:]` is left with. */
  function Rest(url: string): (r: string)
    ensures |r| == if |url| <= 8 then 0 else |url| - 8
    ensures forall i :: 0 <= i < |r| ==> r[i] == url[i + 8]
  {
    DropPrefix(url, 8)
  }

  /** Some '.' occurs in `s` before the first '/' (or anywhere, if there is no '/'). */
  predicate DotBeforeSlash(s: string)
    decreases |s|
  {
    |s| > 0 && s[0] != '/' && (s[0] == '.' || DotBeforeSlash(s[1..]))
  }

  /** The fields a successful parse can produce: no field spans a separator it was cut at. */
  predicate WellFormed(p: AzureParameters) {
    && '.' !in p.account && '/' !in p.account
    && '.' !in p.fileType && '/' !in p.fileType
    && '/' !in p.containerOrShareName
    && '/' !in p.file
    && (p.path.Some? ==> '/' !in p.path.value && p.path.value != p.file)
  }

  /**
   * `_parse_url`. It fails exactly when `url[8:]` has fewer than two '/'
   * (fewer than three segments) or no '.' before its first '/' (a host
   * segment without a second dot-token); every result it returns is
   * well-formed, so LocatorUrl can write it back (ParseLocatorUrl).
   */
  function ParseUrl(url: string): (r: Result<AzureParameters, ParseError>)
    ensures r.Failure? <==> Count(Rest(url), '/') < 2 || !DotBeforeSlash(Rest(url))
    ensures r.Success? ==> WellFormed(r.value)
  {
    var segments := Split(Rest(url), '/');
    var host := Split(segments[0], '.');
    HostTokens(Rest(url));
    if |host| < 2 || |segments| < 3 then
      Failure(IndexError)
    else
      var last := segments[|segments| - 1];
      PieceOfPiece(segments[0], '.', '/', 0);
      PieceOfPiece(segments[0], '.', '/', 1);
      Success(AzureParameters(
        host[0],
        host[1],
        segments[1],
        if segments[2] == last then None else Some(segments[2]),
        last))
  }

  /** The host segment has a second '.'-token exactly when a '.' precedes the first '/'. */
  lemma {:induction false} HostTokens(s: string)
    ensures |Split(Split(s, '/')[0], '.')| >= 2 <==> DotBeforeSlash(s)
  {
    var host := Split(s, '/')[0];
    CountZero(host, '.');
    FirstSegmentDot(s);
  }

  lemma {:induction false} FirstSegmentDot(s: string)
    ensures '.' in Split(s, '/')[0] <==> DotBeforeSlash(s)
    decreases |s|
  {
    if |s| > 0 {
      FirstSegmentDot(s[1..]);
    }
  }

  /** A character that `s` lacks is lacking from each of its split pieces too. */
  lemma PieceOfPiece(s: string, sep: char, c: char, i: nat)
    requires c !in s && i < |Split(s, sep)|
    ensures c !in Split(s, sep)[i]
  {
    var parts := Split(s, sep);
    if c in parts[i] {
      JoinHoldsParts(parts, sep, i, c);
    }
  }

  lemma {:induction false} JoinHoldsParts(parts: seq<string>, sep: char, i: nat, c: char)
    requires i < |parts| && c in parts[i]
    ensures c in Join(parts, sep)
    decreases i
  {
    if i > 0 {
      JoinHoldsParts(parts[1..], sep, i - 1, c);
    }
  }

  /** A join of pieces that all lack `c`, with a separator other than `c`, lacks `c`. */
  lemma {:induction false} JoinLacks(parts: seq<string>, sep: char, c: char)
    requires c != sep
    requires forall i :: 0 <= i < |parts| ==> c !in parts[i]
    ensures c !in Join(parts, sep)
    decreases |parts|
  {
    if |parts| > 1 {
      JoinLacks(parts[1..], sep, c);
    }
  }

  /** The URL a locator stands for, in the documented shape. */
  function LocatorUrl(p: AzureParameters): string {
    "https://" + HostText(p.account, p.fileType) + "/" + p.containerOrShareName + "/"
      + (match p.path case Some(q) => q + "/" case None => "")
      + p.file
  }

  /** The host segment `<account>.<file_type>.core.windows.net`. */
  function HostText(account: string, fileType: string): string {
    account + "." + fileType + ".core.windows.net"
  }

  /** The '/'-segments of `LocatorUrl(p)[8:]`. */
  function UrlSegments(p: AzureParameters): seq<string> {
    [HostText(p.account, p.fileType), p.containerOrShareName]
      + (match p.path case Some(q) => [q] case None => [])
      + [p.file]
  }

  lemma JoinThree(x: string, y: string, z: string, sep: char)
    ensures Join([x, y, z], sep) == x + [sep] + y + [sep] + z
  {
    assert [y, z][1..] == [z];
    assert Join([y, z], sep) == y + [sep] + z;
    assert [x, y, z][1..] == [y, z];
    assert Join([x, y, z], sep) == x + [sep] + (y + [sep] + z);
  }

  lemma JoinFour(w: string, x: string, y: string, z: string, sep: char)
    ensures Join([w, x, y, z], sep) == w + [sep] + x + [sep] + y + [sep] + z
  {
    assert [w, x, y, z][1..] == [x, y, z];
    JoinThree(x, y, z, sep);
  }

  lemma JoinFive(v: string, w: string, x: string, y: string, z: string, sep: char)
    ensures Join([v, w, x, y, z], sep) == v + [sep] + w + [sep] + x + [sep] + y + [sep] + z
  {
    assert [v, w, x, y, z][1..] == [w, x, y, z];
    JoinFour(w, x, y, z, sep);
  }

  lemma UrlSegmentsJoin(p: AzureParameters)
    ensures Rest(LocatorUrl(p)) == Join(UrlSegments(p), '/')
  {
    var h := HostText(p.account, p.fileType);
    match p.path
    case None =>
      JoinThree(h, p.containerOrShareName, p.file, '/');
      assert UrlSegments(p) == [h, p.containerOrShareName, p.file];
      assert LocatorUrl(p) == "https://" + (h + "/" + p.containerOrShareName + "/" + p.file);
    case Some(q) =>
      JoinFour(h, p.containerOrShareName, q, p.file, '/');
      assert UrlSegments(p) == [h, p.containerOrShareName, q, p.file];
      assert LocatorUrl(p) == "https://" + (h + "/" + p.containerOrShareName + "/" + q + "/" + p.file);
  }

  lemma HostSplit(account: string, fileType: string)
    requires '.' !in account && '/' !in account && '.' !in fileType && '/' !in fileType
    ensures '/' !in HostText(account, fileType)
    ensures Split(HostText(account, fileType), '.') == [account, fileType, "core", "windows", "net"]
  {
    var tokens := [account, fileType, "core", "windows", "net"];
    JoinFive(account, fileType, "core", "windows", "net", '.');
    assert HostText(account, fileType) == Join(tokens, '.');
    JoinLacks(tokens, '.', '/');
    SplitJoin(tokens, '.');
  }

  /**
   * Round trip: a well-formed locator written out as a URL parses back to
   * itself, with path None when the URL has no middle segment and the
   * middle segment otherwise.
   */
  lemma ParseLocatorUrl(p: AzureParameters)
    requires WellFormed(p)
    ensures ParseUrl(LocatorUrl(p)) == Success(p)
  {
    HostSplit(p.account, p.fileType);
    UrlSegmentsJoin(p);
    SplitJoin(UrlSegments(p), '/');
  }

  /** Parsing is idempotent: re-parsing the URL rebuilt from a parse gives the same record. */
  lemma ParseIdempotent(url: string)
    requires ParseUrl(url).Success?
    ensures ParseUrl(LocatorUrl(ParseUrl(url).value)) == ParseUrl(url)
  {
    ParseLocatorUrl(ParseUrl(url).value);
  }

  /** The first eight characters are never inspected: any scheme of that length gives the same result. */
  lemma SchemeIgnored(scheme1: string, scheme2: string, rest: string)
    requires |scheme1| == 8 && |scheme2| == 8
    ensures ParseUrl(scheme1 + rest) == ParseUrl(scheme2 + rest)
  {
    assert Rest(scheme1 + rest) == rest == Rest(scheme2 + rest);
  }

  /**
   * What the parser reads off any URL of three or more '/'-segments whose
   * host segment has two or more '.'-tokens: account and file type are the
   * first two tokens, the container is segment 1, the file is the last
   * segment, and the path is segment 2 unless it equals the last segment as
   * a string. Segments 3 to n-2 play no part.
   */
  lemma GeneralParse(scheme: string, tokens: seq<string>, segs: seq<string>)
    requires |scheme| == 8
    requires |tokens| >= 2 && forall i :: 0 <= i < |tokens| ==> '.' !in tokens[i]
    requires |segs| >= 3 && segs[0] == Join(tokens, '.')
    requires forall i :: 0 <= i < |segs| ==> '/' !in segs[i]
    ensures var last := segs[|segs| - 1];
            ParseUrl(scheme + Join(segs, '/'))
            == Success(AzureParameters(tokens[0], tokens[1], segs[1], if segs[2] == last then None else Some(segs[2]), last))
  {
    assert Rest(scheme + Join(segs, '/')) == Join(segs, '/');
    SplitJoin(segs, '/');
    SplitJoin(tokens, '.');
  }

  /** The segment lists GeneralParse applies to, for a host of '.'-tokens `tokens`. */
  predicate ParsableSegments(tokens: seq<string>, segs: seq<string>) {
    && |tokens| >= 2 && (forall i :: 0 <= i < |tokens| ==> '.' !in tokens[i])
    && |segs| >= 3 && segs[0] == Join(tokens, '.')
    && (forall i :: 0 <= i < |segs| ==> '/' !in segs[i])
  }

  /**
   * Only one intermediate segment is kept: two URLs that agree on the host,
   * the container, the first intermediate segment and the file parse alike,
   * whatever further segments either has in between.
   */
  lemma DeepPathDropped(scheme: string, tokens: seq<string>, segs1: seq<string>, segs2: seq<string>)
    requires |scheme| == 8
    requires ParsableSegments(tokens, segs1) && ParsableSegments(tokens, segs2)
    requires segs1[..3] == segs2[..3] && segs1[|segs1| - 1] == segs2[|segs2| - 1]
    ensures ParseUrl(scheme + Join(segs1, '/')) == ParseUrl(scheme + Join(segs2, '/'))
  {
    GeneralParse(scheme, tokens, segs1);
    GeneralParse(scheme, tokens, segs2);
    assert segs1[1] == segs1[..3][1] == segs2[1];
    assert segs1[2] == segs1[..3][2] == segs2[2];
  }

  /**
   * `path` is None whenever segment 2 equals the last segment as a string:
   * for `…/<c>/<f>` (where they are one segment), but also for
   * `…/<c>/<f>/<f>`, which does have a sub-folder, and for longer URLs
   * ending the same way.
   */
  lemma PathNoneByValue(scheme: string, tokens: seq<string>, segs: seq<string>)
    requires |scheme| == 8
    requires ParsableSegments(tokens, segs) && segs[2] == segs[|segs| - 1]
    ensures ParseUrl(scheme + Join(segs, '/')).Success?
    ensures ParseUrl(scheme + Join(segs, '/')).value.path == None
  {
    GeneralParse(scheme, tokens, segs);
  }
}
