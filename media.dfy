/** Stored media: the file name built from a fresh token and the uploaded name, and the locator returned for it. */
module Media {
  import opened Common

  const MediaDir := "media"
  const LocatorPrefix := "/media/"

  /** The on-disk name of an upload: the media directory, the token, an underscore, the original name. */
  function MediaFilename(token: string, original: string): string {
    MediaDir + "/" + token + "_" + original
  }

  /** The locator handed back for a stored file: its name with a leading slash. */
  function Locator(filename: string): string {
    "/" + filename
  }

  /** One upload attempt: the fresh token, the client's file name, and whether creating the directory
      and writing the bytes succeeded (the disk I/O itself is not modelled). */
  datatype Upload = Upload(token: string, filename: string, written: bool)

  /** Storing an upload: the locator of its file when the write succeeded, MediaUploadFailed otherwise. */
  function Store(u: Upload): (r: Result<string, Error>)
    ensures r.Ok? <==> u.written
    ensures r.Err? ==> r.error == MediaUploadFailed
    ensures r.Ok? ==> r.value == Locator(MediaFilename(u.token, u.filename))
    ensures r.Ok? ==> |r.value| >= |LocatorPrefix| && r.value[..|LocatorPrefix|] == LocatorPrefix
  {
    if u.written then Ok(Locator(MediaFilename(u.token, u.filename))) else Err(MediaUploadFailed)
  }

  /** Split a string at its first underscore. */
  function SplitAtUnderscore(s: string): (r: Option<(string, string)>)
    ensures r.Some? ==> r.value.0 + "_" + r.value.1 == s && '_' !in r.value.0
    ensures r.None? ==> '_' !in s
  {
    if s == [] then None
    else if s[0] == '_' then Some(([], s[1..]))
    else match SplitAtUnderscore(s[1..])
      case None => None
      case Some(p) => Some(([s[0]] + p.0, p.1))
  }

  /** Recover the token and the original name from a locator. */
  function ParseLocator(loc: string): Option<(string, string)> {
    if |loc| >= |LocatorPrefix| && loc[..|LocatorPrefix|] == LocatorPrefix
    then SplitAtUnderscore(loc[|LocatorPrefix|..])
    else None
  }

  lemma {:induction false} SplitAfterToken(token: string, original: string)
    requires '_' !in token
    ensures SplitAtUnderscore(token + "_" + original) == Some((token, original))
  {
    var s := token + "_" + original;
    if token == [] {
      assert s[0] == '_' && s[1..] == original;
    } else {
      assert s[0] == token[0] && s[1..] == token[1..] + "_" + original;
      SplitAfterToken(token[1..], original);
      assert [token[0]] + token[1..] == token;
    }
  }

  /** A token without underscores (as the text of a UUID is) can be read back, with the original name,
      from the locator of the file it named. */
  lemma LocatorRoundTrip(token: string, original: string)
    requires '_' !in token
    ensures ParseLocator(Locator(MediaFilename(token, original))) == Some((token, original))
  {
    var loc := Locator(MediaFilename(token, original));
    assert loc == LocatorPrefix + (token + "_" + original);
    assert loc[..|LocatorPrefix|] == LocatorPrefix;
    assert loc[|LocatorPrefix|..] == token + "_" + original;
    SplitAfterToken(token, original);
  }

  /** Distinct tokens give distinct locators, whatever the uploaded names. */
  lemma DistinctTokensDistinctLocators(t1: string, n1: string, t2: string, n2: string)
    requires '_' !in t1 && '_' !in t2 && t1 != t2
    ensures Locator(MediaFilename(t1, n1)) != Locator(MediaFilename(t2, n2))
  {
    LocatorRoundTrip(t1, n1);
    LocatorRoundTrip(t2, n2);
  }
}
