/**
 * The pure part of the action router: actions as parsed values, the
 * encoding parameters an action asks for, wildcard resolution, the status
 * policy of a fetch over every link, the link-creation guard and the
 * generated hashtags.
 */
module Actions {
  import opened Sdk
  import opened Mastodon
  import opened Staging
  import opened Links
  import opened Decimal

  datatype ActionType = ActionFetch | ActionPost | ActionUndef

  /** The optional "contentType" member of an action: absent, a string, or some other JSON value. */
  datatype TypeHint = NoHint | Hint(value: string) | NonStringHint

  /**
   * An action's JSON payload after parsing: the empty string, text that
   * does not parse into an action, or the parsed fields.
   */
  datatype ActionJson =
    | EmptyJson
    | Malformed
    | Parsed(target: LinkId, actionType: ActionType, hint: TypeHint)

  datatype Action = Action(actionId: ActionId, json: ActionJson)

  /** The hints asking for text and an image in one post; none of them is an image or text hint. */
  predicate IsMixedHint(h: string): (b: bool)
    ensures b ==> !IsImageHint(h) && h != "text"
  {
    h == "mixed" || h == "text+image"
  }

  /** The hints asking for an image; "text" is not one of them. */
  predicate IsImageHint(h: string): (b: bool)
    ensures b ==> h != "text"
  {
    h == "image" || h == "jpg" || h == "jpeg"
  }

  /** The MIME type a single-part post is encoded as: image for an image hint, text otherwise. */
  function HintedType(hint: TypeHint): (t: string)
    ensures t == TextPlain || t == ImageJpeg
    ensures hint.NoHint? || hint == Hint("text") ==> t == TextPlain
    ensures hint.Hint? && hint.value in ["image", "jpg", "jpeg"] ==> t == ImageJpeg
  {
    if hint.Hint? && IsImageHint(hint.value) then ImageJpeg else TextPlain
  }

  /** The parameters asked for, and whether the component state is set to FAILED. */
  datatype ParamsOutcome = ParamsOutcome(params: seq<EncodingParameters>, stateFailed: bool)

  function GetActionParams(json: ActionJson): (r: ParamsOutcome)
    // an empty payload or an unknown action type fails the component; parse errors do not
    ensures r.stateFailed <==>
              json.EmptyJson? || (json.Parsed? && json.actionType == ActionUndef && !json.hint.NonStringHint?)
    // only a post asks for content, and only when its payload parsed completely
    ensures r.params != [] <==> json.Parsed? && json.actionType == ActionPost && !json.hint.NonStringHint?
    // a mixed post asks for text first, then the image
    ensures json.Parsed? && json.actionType == ActionPost && json.hint.Hint? && IsMixedHint(json.hint.value) ==>
              r.params == [EncodingParameters(json.target, TextPlain, true), EncodingParameters(json.target, ImageJpeg, true)]
    // any other post asks for one part: an image when hinted, text by default
    ensures json.Parsed? && json.actionType == ActionPost && !json.hint.NonStringHint?
            && !(json.hint.Hint? && IsMixedHint(json.hint.value)) ==>
              r.params == [EncodingParameters(json.target, HintedType(json.hint), true)]
  {
    match json
    case EmptyJson => ParamsOutcome([], true)
    case Malformed => ParamsOutcome([], false)
    case Parsed(target, actionType, hint) =>
      if hint.NonStringHint? then ParamsOutcome([], false)
      else if hint.Hint? && IsMixedHint(hint.value) && actionType == ActionPost then
        ParamsOutcome([EncodingParameters(target, TextPlain, true), EncodingParameters(target, ImageJpeg, true)], false)
      else
        match actionType
        case ActionFetch => ParamsOutcome([], false)
        case ActionPost => ParamsOutcome([EncodingParameters(target, HintedType(hint), true)], false)
        case ActionUndef => ParamsOutcome([], true)
  }

  /** Every parameter an action asks for is of a type a link can stage. */
  lemma ParamsAreStageable(json: ActionJson, q: ContentQueue, id: ActionId, content: Bytes)
    ensures forall p :: p in GetActionParams(json).params ==>
              Enqueue(q, id, content, p.contentType).status == ComponentOk
  {
  }

  /**
   * The fragment order of a mixed post matches the delivery order of a
   * fetch: whichever order the service returns the post's two parts in,
   * the i-th delivery has the MIME type of the i-th parameter.
   */
  lemma MixedPostOrderMatchesFetch(target: LinkId, hint: string, text: MastodonContent, image: MastodonContent,
                                   results: seq<MastodonContent>)
    requires IsMixedHint(hint)
    requires text.contentType == TextPlain && image.contentType == ImageJpeg
    requires results == [text, image] || results == [image, text]
    ensures var ps := GetActionParams(Parsed(target, ActionPost, Hint(hint))).params;
            var es := FetchEvents(target, results);
            |es| == |ps| && forall i :: 0 <= i < |ps| ==> es[i].Receive? && es[i].params.contentType == ps[i].contentType
  {
    TextPlainIsNotImageJpeg();
    var first := results[..1];
    assert first[..0] == [];
    assert results[..|results| - 1] == first;
    if results == [text, image] {
      assert OfType(first, TextPlain) == [text];
      assert OfType(first, ImageJpeg) == [];
    } else {
      assert OfType(first, TextPlain) == [];
      assert OfType(first, ImageJpeg) == [image];
    }
    assert OfType(results, TextPlain) == [text];
    assert OfType(results, ImageJpeg) == [image];
    FetchTextBeforeImage(target, results);
  }

  /** The link an action addresses: its own target, or for "*" the link its content was staged on. */
  function ResolveLink(bindings: map<ActionId, LinkId>, id: ActionId, target: LinkId): (r: Option<LinkId>)
    ensures target != Wildcard ==> r == Some(target)
    ensures target == Wildcard ==> (r.Some? <==> id in bindings) && (r.Some? ==> r.value == bindings[id])
  {
    if target != Wildcard then Some(target)
    else if id in bindings then Some(bindings[id])
    else None
  }

  /** One step of the fetch-all policy: FATAL wins, any other failure replaces what came before. */
  function FanOutStep(acc: ComponentStatus, s: ComponentStatus): ComponentStatus
  {
    if s == ComponentFatal then ComponentFatal
    else if s != ComponentOk then s
    else acc
  }

  /** The status of a fetch over several links that stops at the first FATAL. */
  function FanOut(ss: seq<ComponentStatus>): ComponentStatus
  {
    if ss == [] then ComponentOk
    else
      var acc := FanOut(ss[..|ss| - 1]);
      if acc == ComponentFatal then ComponentFatal else FanOutStep(acc, ss[|ss| - 1])
  }

  /** Before any FATAL, one more link's status is folded in by one policy step. */
  lemma FanOutSnoc(ss: seq<ComponentStatus>, s: ComponentStatus)
    requires FanOut(ss) != ComponentFatal
    ensures FanOut(ss + [s]) == FanOutStep(FanOut(ss), s)
  {
    assert (ss + [s])[..|ss|] == ss;
  }

  lemma {:induction false} FanOutFatal(ss: seq<ComponentStatus>)
    ensures FanOut(ss) == ComponentFatal <==> ComponentFatal in ss
  {
    if ss != [] {
      FanOutFatal(ss[..|ss| - 1]);
      assert ss == ss[..|ss| - 1] + [ss[|ss| - 1]];
    }
  }

  /** Once FATAL, later links do not change the outcome, so stopping early is sound. */
  lemma {:induction false} FanOutAbsorbs(ss: seq<ComponentStatus>, rest: seq<ComponentStatus>)
    requires FanOut(ss) == ComponentFatal
    ensures FanOut(ss + rest) == ComponentFatal
  {
    if rest == [] {
      assert ss + rest == ss;
    } else {
      FanOutAbsorbs(ss, rest[..|rest| - 1]);
      assert (ss + rest)[..|ss + rest| - 1] == ss + rest[..|rest| - 1];
    }
  }

  /** Without FATAL, the outcome is OK when every link is OK ... */
  lemma {:induction false} FanOutAllOk(ss: seq<ComponentStatus>)
    requires forall k :: 0 <= k < |ss| ==> ss[k] == ComponentOk
    ensures FanOut(ss) == ComponentOk
  {
    if ss != [] {
      FanOutAllOk(ss[..|ss| - 1]);
    }
  }

  /** ... and otherwise the last failure seen. */
  lemma {:induction false} FanOutLastFailure(ss: seq<ComponentStatus>, j: nat)
    requires ComponentFatal !in ss
    requires j < |ss| && ss[j] != ComponentOk
    requires forall k :: j < k < |ss| ==> ss[k] == ComponentOk
    ensures FanOut(ss) == ss[j]
  {
    var init := ss[..|ss| - 1];
    assert ComponentFatal !in init by {
      assert forall s :: s in init ==> s in ss;
    }
    FanOutFatal(init);
    if j < |ss| - 1 {
      FanOutLastFailure(init, j);
    }
  }

  /** The link-creation guard: room under a positive link limit, and a role side that may create. */
  function CanCreateLink(numLinks: int, maxLinks: int, side: LinkSide, invalidSide: LinkSide): bool
  {
    !(maxLinks > 0 && numLinks >= maxLinks) && side != LsUndef && side != invalidSide
  }

  const HashtagPrefix: string := "pqrstuv"

  /** The hashtag `createLink` generates from its counter. */
  function GeneratedHashtag(n: nat): (tag: string)
    ensures |tag| > |HashtagPrefix|
    ensures tag[..|HashtagPrefix|] == HashtagPrefix && tag[|HashtagPrefix|..] == NatToString(n)
  {
    HashtagPrefix + NatToString(n)
  }

  /** Distinct counter values give distinct hashtags, so a generated tag is never reused. */
  lemma GeneratedHashtagsDistinct(m: nat, n: nat)
    requires m != n
    ensures GeneratedHashtag(m) != GeneratedHashtag(n)
  {
    NatToStringInjective(m, n);
    assert GeneratedHashtag(m)[|HashtagPrefix|..] == NatToString(m);
    assert GeneratedHashtag(n)[|HashtagPrefix|..] == NatToString(n);
  }
}
