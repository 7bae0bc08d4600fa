/** The avatar beside the hero text: the still picture, the animated one while
    the pointer is over it, or a "No Avatar" caption. The hover flag is passed
    in by the parent. */
module HeroAvatarView {
  import opened Js
  import opened HeroRecord

  /** The component's own fallback when no hero record is passed: a name and
      two empty pictures. */
  const DefaultAvatarData: Hero := Hero(Some("Suriya Prakash"), None, None, None, Some(""), Some(""), None, None)

  /** `data || defaultData`. */
  function AvatarData(data: Option<Hero>): (h: Hero)
    ensures data.Some? ==> h == data.value
    ensures data.None? ==> h.name == Some("Suriya Prakash") && !Truthy(h.avatar) && !Truthy(h.animatedAvatar)
  {
    if data.Some? then data.value else DefaultAvatarData
  }

  datatype Picture = AnimatedImage(src: string) | StaticImage(src: string) | NoAvatar(caption: string)

  /** The animated picture needs the pointer over the avatar and a non-empty
      animated URL; otherwise a non-empty still picture is shown; otherwise
      the caption. */
  function Shown(data: Option<Hero>, isHovering: bool): (p: Picture)
    ensures p.AnimatedImage? <==> isHovering && Truthy(AvatarData(data).animatedAvatar)
    ensures p.AnimatedImage? ==> p.src == AvatarData(data).animatedAvatar.value
    ensures p.StaticImage? <==>
      !(isHovering && Truthy(AvatarData(data).animatedAvatar)) && Truthy(AvatarData(data).avatar)
    ensures p.StaticImage? ==> p.src == AvatarData(data).avatar.value
    ensures p.NoAvatar? ==> p.caption == "No Avatar"
  {
    var h := AvatarData(data);
    if isHovering && Truthy(h.animatedAvatar) then AnimatedImage(h.animatedAvatar.value)
    else if Truthy(h.avatar) then StaticImage(h.avatar.value)
    else NoAvatar("No Avatar")
  }

  /** Hovering only ever swaps in the animated picture: without one, or once
      the pointer leaves, the still view is back unchanged. */
  lemma HoverOnlyAddsAnimation(data: Option<Hero>)
    ensures !Shown(data, true).AnimatedImage? ==> Shown(data, true) == Shown(data, false)
    ensures !Shown(data, false).AnimatedImage?
  {
  }

  /** With no record passed, the caption shows whatever the pointer does. */
  lemma DefaultShowsCaption(isHovering: bool)
    ensures Shown(None, isHovering) == NoAvatar("No Avatar")
  {
  }
}
