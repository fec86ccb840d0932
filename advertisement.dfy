/** The advertisement as the pages receive it, and the image-URL rewrite both
    the card and the advertisement page apply to it. */
module Advertisements {
  import opened Common
  import opened Strings

  /** A string field of a JSON body: absent (`undefined`), `null`, or a
      string. */
  datatype JsonString = Missing | Null | Text(value: string)

  /** The fields of an advertisement the modelled code reads. The image lists
      are `None` when the field is absent or `null`. */
  datatype Advertisement = Advertisement(
    advertisementId: string,
    title: string,
    location: string,
    description: string,
    active: bool,
    thumbnailUrls: Option<seq<string>>,
    imageUrls: Option<seq<string>>,
    sellerEmail: JsonString)

  const MinioOrigin: string := "http://minio:9000"
  const LocalOrigin: string := "http://localhost:9000"

  /** `fixDockerUrl`: a missing or empty URL gives `null`; otherwise the
      first occurrence of the storage container's origin is replaced by the
      origin the browser can reach. */
  function FixDockerUrl(url: Option<string>): Option<string> {
    match url
    case None => None
    case Some(u) => if u == "" then None else Some(ReplaceFirst(u, MinioOrigin, LocalOrigin))
  }

  /** `null` comes out exactly for a missing or empty URL; a URL that does not
      mention the storage container comes out unchanged; one that does has
      its first mention replaced and everything else kept. */
  lemma FixDockerUrlCases(url: Option<string>)
    ensures FixDockerUrl(url).None? <==> url.None? || url.value == ""
    ensures url.Some? && url.value != "" && !Contains(url.value, MinioOrigin) ==>
      FixDockerUrl(url) == url
    ensures url.Some? && Contains(url.value, MinioOrigin) ==>
      exists i :: && 0 <= i && i + |MinioOrigin| <= |url.value|
                  && url.value[i..i + |MinioOrigin|] == MinioOrigin
                  && FixDockerUrl(url).value
                     == url.value[..i] + LocalOrigin + url.value[i + |MinioOrigin|..]
                  && forall j :: 0 <= j < i ==> !OccursAt(url.value, MinioOrigin, j)
  {
    if url.Some? && Contains(url.value, MinioOrigin) {
      var i := IndexOf(url.value, MinioOrigin).value;
      assert OccursAt(url.value, MinioOrigin, i);
    }
  }

  /** The use the rewrite exists for: a URL issued by the storage container
      becomes the same path on the local origin. */
  lemma FixDockerUrlRewritesOrigin(path: string)
    ensures FixDockerUrl(Some(MinioOrigin + path)) == Some(LocalOrigin + path)
  {
    var u := MinioOrigin + path;
    assert |MinioOrigin| == 17 && u != "";
    assert OccursAt(u, MinioOrigin, 0);
    assert IndexOf(u, MinioOrigin) == Some(0);
    assert u[..0] == [] && u[|MinioOrigin|..] == path;
    assert ReplaceFirst(u, MinioOrigin, LocalOrigin) == LocalOrigin + path;
  }
}
