/**
 * The remote posting service, seen only through the calls the transport
 * makes. HTTP, multipart upload, TLS and HTML stripping are outside the
 * model: a `Remote` value says, for each call, whether the service accepts
 * it, and for each hashtag, which items a search returns.
 */
module Mastodon {
  import opened Sdk

  /** One item of a search result: its MIME type and its raw bytes. */
  datatype MastodonContent = MastodonContent(contentType: string, data: Bytes)

  /** The three posting calls; the text of a post is the staged text bytes, unchanged. */
  datatype RemoteCall =
    | PostStatus(text: Bytes, hashtag: string)
    | PostImage(image: Bytes, hashtag: string)
    | PostImageWithText(image: Bytes, text: Bytes, hashtag: string)

  /** The service as an oracle: the outcome of each posting call and the result of each search. */
  datatype Remote = Remote(accepts: RemoteCall -> bool, search: string -> seq<MastodonContent>)
}
