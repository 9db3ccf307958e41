/**
 * The one pure piece of the inference runner (runners/krateo-iris/main.go):
 * the model URL from the contract is given a scheme before the runner calls
 * the inference endpoint. Go's strings.HasPrefix compares bytes; the model
 * compares characters, which agrees for the ASCII prefixes it looks for.
 */
module Runner {
  import opened Wrappers

  const Http := "http://"
  const Https := "https://"

  predicate StartsWith(s: string, p: string) {
    |p| <= |s| && s[..|p|] == p
  }

  /** The URL already names a scheme the runner accepts. */
  predicate HasScheme(url: string) {
    StartsWith(url, Http) || StartsWith(url, Https)
  }

  /**
   * The normalised URL. The Go function returns an error value too, which is
   * always nil; the model keeps the Result and proves it is always a Success.
   * A URL that already has a scheme is returned as it is; any other string is
   * kept whole after an added "http://".
   */
  function NormalizeURL(raw: string): (r: Result<string, string>)
    ensures r.Success?
    ensures HasScheme(r.value)
    ensures r.value == raw <==> HasScheme(raw)
    ensures !HasScheme(raw) ==> StartsWith(r.value, Http) && r.value[|Http|..] == raw
  {
    if HasScheme(raw) then Success(raw)
    else
      var url := Http + raw;
      assert url[..|Http|] == Http;
      Success(url)
  }

  /** Normalising twice is the same as normalising once. */
  lemma NormalizeIdempotent(raw: string)
    ensures NormalizeURL(NormalizeURL(raw).value) == NormalizeURL(raw)
  {
    var once := NormalizeURL(raw).value;
    assert HasScheme(once);
  }
}
