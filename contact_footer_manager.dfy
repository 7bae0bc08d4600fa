/** The contact and footer editor: top-level contact fields, the social
    links keyed by platform, and the save that drops empty links. */
module ContactEditor {
  import opened Js
  import opened ContactRecord

  /** The platforms the form offers, in order. */
  const Platforms: seq<string> := ["github", "linkedin", "instagram", "twitter", "portfolio"]

  datatype ContactField = Email | Phone | Location | Web3formsKey

  function Field(c: Contact, f: ContactField): Option<string> {
    match f
    case Email => c.email
    case Phone => c.phone
    case Location => c.location
    case Web3formsKey => c.web3formsKey
  }

  /** `handleChange(field, value)`: only that top-level field changes. */
  function Change(c: Contact, f: ContactField, value: string): (r: Contact)
    ensures Field(r, f) == Some(value)
    ensures forall g :: g != f ==> Field(r, g) == Field(c, g)
    ensures r.social == c.social
  {
    match f
    case Email => c.(email := Some(value))
    case Phone => c.(phone := Some(value))
    case Location => c.(location := Some(value))
    case Web3formsKey => c.(web3formsKey := Some(value))
  }

  function SocialOf(c: Contact): map<string, string> {
    if c.social.Some? then c.social.value else map[]
  }

  /** `handleSocialChange(platform, value)`: one key of `social` is set (the
      map is created when absent); the other keys and every top-level field
      keep their values. */
  function SocialChange(c: Contact, platform: string, value: string): (r: Contact)
    ensures r.social.Some? && platform in r.social.value && r.social.value[platform] == value
    ensures forall k :: k in SocialOf(c) && k != platform ==> k in r.social.value && r.social.value[k] == SocialOf(c)[k]
    ensures forall k :: k in r.social.value ==> k == platform || k in SocialOf(c)
    ensures forall g :: Field(r, g) == Field(c, g)
  {
    c.(social := Some(SocialOf(c)[platform := value]))
  }

  /** The save-time filter: entries whose value is empty after trimming are
      dropped; kept values are not trimmed. */
  function FilterSocial(m: map<string, string>): (r: map<string, string>)
    ensures forall k :: k in r ==> k in m && r[k] == m[k]
    ensures forall k :: k in r <==> k in m && !IsBlank(m[k])
  {
    var r := map k | k in m && Trim(m[k]) != "" :: m[k];
    forall k | k in m ensures k in r <==> !IsBlank(m[k]) {
      TrimEmptyIffBlank(m[k]);
    }
    r
  }

  /** Filtering again drops nothing more. */
  lemma FilterSocialIdempotent(m: map<string, string>)
    ensures FilterSocial(FilterSocial(m)) == FilterSocial(m)
  {
  }

  /** `handleSave`: what `onSave` receives. */
  function SaveContact(c: Contact): (r: Contact)
    ensures r.social == Some(FilterSocial(SocialOf(c)))
    ensures forall g :: Field(r, g) == Field(c, g)
  {
    c.(social := Some(FilterSocial(SocialOf(c))))
  }

  /** A missing `social` is saved as an empty map. */
  lemma SaveWithoutSocial(c: Contact)
    requires c.social.None?
    ensures SaveContact(c).social == Some(map[])
  {
  }

  /** Saving a saved record changes nothing. */
  lemma SaveIdempotent(c: Contact)
    ensures SaveContact(SaveContact(c)) == SaveContact(c)
  {
    FilterSocialIdempotent(SocialOf(c));
  }

  /** Clearing a link in the form and saving removes the platform. */
  lemma ClearedLinkIsDropped(c: Contact, platform: string, value: string)
    requires IsBlank(value)
    ensures platform !in SaveContact(SocialChange(c, platform, value)).social.value
  {
  }
}
