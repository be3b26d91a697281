/**
 * Vocabulary shared by the transport: status codes, identifiers and the
 * callbacks the transport makes into the host SDK.
 *
 * Every callback the transport makes (package status, received content,
 * link status, component state) is recorded as an `Event`; each operation
 * of the model returns the events it emits, in emission order.
 */
module Sdk {

  newtype byte = x: int | 0 <= x < 256

  type Bytes = seq<byte>

  /** Link identifiers are strings; "*" is the wildcard target of an action. */
  type LinkId = string

  /** Action identifiers and SDK handles are unsigned 64-bit values. */
  type ActionId = nat
  type Handle = nat

  const Wildcard: LinkId := "*"

  /** The two MIME types the transport stages, posts and delivers. */
  const TextPlain: string := "text/plain"
  const ImageJpeg: string := "image/jpeg"

  datatype Option<T> = None | Some(value: T)

  datatype ComponentStatus = ComponentOk | ComponentError | ComponentFatal

  datatype PackageStatus = PackageSent | PackageFailedGeneric

  datatype LinkStatus = LinkCreated | LinkLoaded | LinkDestroyed

  datatype ComponentState = StateStarted | StateFailed

  datatype LinkSide = LsUndef | LsCreator | LsLoader | LsBoth

  /** What an encoder is asked to produce for an action, and what a delivery is tagged with. */
  datatype EncodingParameters = EncodingParameters(linkId: LinkId, contentType: string, encodePackage: bool)

  /** One callback into the SDK. */
  datatype Event =
    | PackageStatusChanged(handle: Handle, status: PackageStatus)
    | Receive(linkId: LinkId, params: EncodingParameters, data: Bytes)
    | LinkStatusChanged(handle: Handle, link: LinkId, linkStatus: LinkStatus)
    | StateUpdated(state: ComponentState)
}
