/** The URL `check_ollama` probes: the embedding endpoint cut back to the
    service's base URL. The GET itself, its timeout and the 60-second result
    cache are not modelled; the probe's answer is a parameter of the search. */
module Reachability {
  import opened Text

  const EmbeddingsMarker := "/api/embeddings"
  const EmbedMarker := "/api/embed"

  /** The Ollama endpoint used when OLLAMA_ENDPOINT is unset. */
  const DefaultEndpoint := "http://localhost:11434/api/embed"

  /** The base URL probed for reachability. */
  function CheckUrl(endpoint: string): (url: string)
    ensures forall i :: IsFirstOccurrence(endpoint, EmbeddingsMarker, i) ==>
              url == endpoint[..i] + "/"
    ensures !Contains(endpoint, EmbeddingsMarker) ==>
              forall i :: IsFirstOccurrence(endpoint, EmbedMarker, i) ==> url == endpoint[..i] + "/"
    ensures !Contains(endpoint, EmbeddingsMarker) && !Contains(endpoint, EmbedMarker) ==>
              url == endpoint
  {
    if Find(endpoint, EmbeddingsMarker).Some? then BeforeFirst(endpoint, EmbeddingsMarker) + "/"
    else if Find(endpoint, EmbedMarker).Some? then BeforeFirst(endpoint, EmbedMarker) + "/"
    else endpoint
  }

  /** The URL probed is either the endpoint itself or a prefix of the
      endpoint followed by a slash. */
  lemma CheckUrlIsCutEndpoint(endpoint: string)
    ensures var url := CheckUrl(endpoint);
            url == endpoint || (|url| > 0 && url[..|url| - 1] == endpoint[..|url| - 1] && url[|url| - 1] == '/')
  {
  }

  /** `/api/embeddings` starts with `/api/embed`. */
  lemma EmbedMarkerIsPrefix()
    ensures OccursAt(EmbeddingsMarker, EmbedMarker, 0)
  {
  }

  /** Where the longer marker occurs, the shorter one occurs no later, and
      cutting at the shorter one would give the same URL exactly when its
      first occurrence starts the first `/api/embeddings`. So the order of
      the two tests matters only for an endpoint with an `/api/embed` before
      its first `/api/embeddings` (`h/api/embed/x/api/embeddings` is probed
      at `h/api/embed/x/`, not at `h/`). */
  lemma MarkerOrderMatters(endpoint: string, i: nat, j: nat)
    requires IsFirstOccurrence(endpoint, EmbeddingsMarker, i)
    requires IsFirstOccurrence(endpoint, EmbedMarker, j)
    ensures j <= i
    ensures CheckUrl(endpoint) == endpoint[..i] + "/"
    ensures CheckUrl(endpoint) == BeforeFirst(endpoint, EmbedMarker) + "/" <==> j == i
  {
    EmbedMarkerIsPrefix();
    assert endpoint[i..i + |EmbedMarker|] == endpoint[i..i + |EmbeddingsMarker|][..|EmbedMarker|];
    assert OccursAt(endpoint, EmbedMarker, i);
    assert |endpoint[..i] + "/"| == i + 1;
    assert |endpoint[..j] + "/"| == j + 1;
  }

  /** The default endpoint is probed at its host root. */
  lemma DefaultEndpointProbe()
    ensures CheckUrl(DefaultEndpoint) == "http://localhost:11434/"
  {
    NoLongMarkerInDefault();
    FirstEmbedInDefault();
    assert DefaultEndpoint[..22] + "/" == "http://localhost:11434/";
  }

  lemma NoLongMarkerInDefault()
    ensures !Contains(DefaultEndpoint, EmbeddingsMarker)
  {
    var s := DefaultEndpoint;
    forall i | 0 <= i <= |s| - |EmbeddingsMarker|
      ensures !OccursAt(s, EmbeddingsMarker, i)
    {
      // where the marker could start, no '/' is followed by 'a'
      assert s[i] != '/' || s[i + 1] != 'a';
      assert s[i..i + 15][0] == s[i] && s[i..i + 15][1] == s[i + 1];
    }
  }

  lemma FirstEmbedInDefault()
    ensures IsFirstOccurrence(DefaultEndpoint, EmbedMarker, 22)
  {
    var s := DefaultEndpoint;
    assert s[22..32] == EmbedMarker;
    forall j | 0 <= j < 22
      ensures !OccursAt(s, EmbedMarker, j)
    {
      assert s[j] != '/' || s[j + 1] != 'a';
      assert s[j..j + 10][0] == s[j] && s[j..j + 10][1] == s[j + 1];
    }
  }
}
