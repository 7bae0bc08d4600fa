/** The public hero section: the fallback record, the avatar/placeholder
    choice, and the typewriter that types and deletes the roles in turn. */
module HeroSection {
  import opened Js
  import opened HeroRecord

  const DefaultRoles: seq<string> :=
    ["Engineering Student", "Full Stack Developer", "Problem Solver", "Tech Enthusiast"]

  const DefaultHero: Hero := Hero(
    Some("Suriya Prakash"),
    Some("Passionate about creating innovative solutions and bringing ideas to life through code. Currently based in Tamil Nadu, India."),
    Some("Tamil Nadu, India"),
    Some(DefaultRoles),
    Some(""),
    None, None, None)

  /** `heroData || defaultHeroData`: the stored record whenever there is one. */
  function Displayed(stored: Option<Hero>): (h: Hero)
    ensures stored.Some? ==> h == stored.value
    ensures stored.None? ==> h.name == Some("Suriya Prakash") && h.roles == Some(DefaultRoles)
  {
    if stored.Some? then stored.value else DefaultHero
  }

  /** `data.roles || defaultHeroData.roles`: a stored roles list is used even
      when it is empty; only a missing one falls back to the four defaults. */
  function Roles(stored: Option<Hero>): (roles: seq<string>)
    ensures stored.Some? && stored.value.roles.Some? ==> roles == stored.value.roles.value
    ensures stored.None? || stored.value.roles.None? ==> roles == DefaultRoles && |roles| == 4
  {
    OrList(Displayed(stored).roles, DefaultRoles)
  }

  datatype AvatarView = AvatarImage(src: string) | Placeholder(caption: string)

  /** The image is rendered exactly when the avatar is a non-empty string;
      otherwise the "Your Photo" placeholder shows. */
  function AvatarShown(h: Hero): (v: AvatarView)
    ensures v.AvatarImage? <==> Truthy(h.avatar)
    ensures v.AvatarImage? ==> v.src == h.avatar.value
    ensures v.Placeholder? ==> v.caption == "Your Photo"
  {
    if Truthy(h.avatar) then AvatarImage(h.avatar.value) else Placeholder("Your Photo")
  }

  // ---------------------------------------------------------------------
  // The typewriter

  /** The typewriter's state: the index of the current role, the text shown,
      whether it is deleting, and whether the 2000 ms timer that starts the
      deletion has been armed (the text is then complete and nothing else is
      pending). */
  datatype TypeState = TypeState(role: nat, text: string, deleting: bool, holding: bool)

  const Initial := TypeState(0, "", false, false)

  const TypingDelay := 100
  const DeletingDelay := 50
  const HoldDelay := 2000

  /** The invariant: the index is in range and the text shown is a prefix of
      the current role (the whole role while holding). With no roles the
      effect returns before arming any timer, so the state stays initial. */
  predicate Inv(roles: seq<string>, s: TypeState) {
    if |roles| == 0 then s == Initial
    else
      s.role < |roles| && s.text <= roles[s.role]
      && (s.holding ==> !s.deleting && s.text == roles[s.role])
  }

  /** A step timer is pending: there are roles, and the hold timer is not armed. */
  predicate StepArmed(roles: seq<string>, s: TypeState) {
    |roles| > 0 && !s.holding
  }

  /** What the step timer does when it fires. */
  function Next(roles: seq<string>, s: TypeState): (t: TypeState)
    requires Inv(roles, s) && StepArmed(roles, s)
    ensures Inv(roles, t)
  {
    var current := roles[s.role];
    if !s.deleting then
      if |s.text| < |current| then s.(text := current[..|s.text| + 1])
      else s.(holding := true)
    else if |s.text| > 0 then s.(text := current[..|s.text| - 1])
    else TypeState((s.role + 1) % |roles|, s.text, false, false)
  }

  /** What the hold timer does when it fires: deletion starts. */
  function EndHold(roles: seq<string>, s: TypeState): (t: TypeState)
    requires Inv(roles, s) && s.holding
    ensures Inv(roles, t) && t.deleting && t.text == s.text && t.role == s.role
  {
    s.(deleting := true, holding := false)
  }

  /** Each step changes the text by exactly one character at its end, or not
      at all: typing appends the next character of the current role,
      deleting drops the last character. */
  lemma StepIsOneCharacter(roles: seq<string>, s: TypeState)
    requires Inv(roles, s) && StepArmed(roles, s)
    ensures var t := Next(roles, s);
      && (!s.deleting && |s.text| < |roles[s.role]| ==>
            t.text == s.text + [roles[s.role][|s.text|]] && t.role == s.role && !t.deleting)
      && (!s.deleting && |s.text| == |roles[s.role]| ==> t == s.(holding := true))
      && (s.deleting && s.text != "" ==> t.text + [s.text[|s.text| - 1]] == s.text && t.deleting)
      && (s.deleting && s.text == "" ==>
            t == TypeState((s.role + 1) % |roles|, "", false, false))
  {
    var current := roles[s.role];
    if !s.deleting && |s.text| < |current| {
      assert current[..|s.text|] == s.text;
      assert current[..|s.text| + 1] == current[..|s.text|] + [current[|s.text|]];
    }
    if s.deleting && s.text != "" {
      assert current[..|s.text|] == s.text;
      assert s.text == current[..|s.text| - 1] + [s.text[|s.text| - 1]];
    }
  }

  /** Up to `n` timer steps, stopping early when the hold timer is armed. */
  function Run(roles: seq<string>, s: TypeState, n: nat): (t: TypeState)
    requires Inv(roles, s)
    ensures Inv(roles, t)
    decreases n
  {
    if n == 0 || !StepArmed(roles, s) then s else Run(roles, Next(roles, s), n - 1)
  }

  /** Typing from any prefix of the current role: `k` steps add `k` characters. */
  lemma {:induction false} TypingRun(roles: seq<string>, i: nat, j: nat, k: nat)
    requires i < |roles| && j + k <= |roles[i]|
    ensures Run(roles, TypeState(i, roles[i][..j], false, false), k)
            == TypeState(i, roles[i][..j + k], false, false)
    decreases k
  {
    if k > 0 {
      var s := TypeState(i, roles[i][..j], false, false);
      assert Next(roles, s) == TypeState(i, roles[i][..j + 1], false, false);
      TypingRun(roles, i, j + 1, k - 1);
    }
  }

  /** Deleting from any prefix of the current role: `k` steps remove `k`
      characters. */
  lemma {:induction false} DeletingRun(roles: seq<string>, i: nat, j: nat, k: nat)
    requires i < |roles| && k <= j <= |roles[i]|
    ensures Run(roles, TypeState(i, roles[i][..j], true, false), k)
            == TypeState(i, roles[i][..j - k], true, false)
  {
    if k > 0 {
      var s := TypeState(i, roles[i][..j], true, false);
      assert Next(roles, s) == TypeState(i, roles[i][..j - 1], true, false);
      DeletingRun(roles, i, j - 1, k - 1);
    }
  }

  /** One full cycle: from an empty text, the role is typed out in |r| steps,
      the next step arms the hold, the hold timer starts deletion, |r| steps
      delete it again, and one more step moves to the next role, wrapping
      around after the last. */
  lemma RoleCycle(roles: seq<string>, i: nat)
    requires i < |roles|
    ensures var r := roles[i];
      var typed := Run(roles, TypeState(i, "", false, false), |r| + 1);
      && typed == TypeState(i, r, false, true)
      && Run(roles, EndHold(roles, typed), |r| + 1) == TypeState((i + 1) % |roles|, "", false, false)
  {
    var r := roles[i];
    TypingRun(roles, i, 0, |r|);
    assert roles[i][..0] == "" && roles[i][..|r|] == r;
    var full := TypeState(i, r, false, false);
    RunSplit(roles, TypeState(i, "", false, false), |r|, 1);
    assert Next(roles, full) == TypeState(i, r, false, true);
    var deleting := TypeState(i, r, true, false);
    DeletingRun(roles, i, |r|, |r|);
    RunSplit(roles, deleting, |r|, 1);
  }

  /** Running `a` steps and then `b` steps is running `a + b` steps. */
  lemma {:induction false} RunSplit(roles: seq<string>, s: TypeState, a: nat, b: nat)
    requires Inv(roles, s)
    ensures Run(roles, Run(roles, s, a), b) == Run(roles, s, a + b)
    decreases a
  {
    if a > 0 && StepArmed(roles, s) {
      RunSplit(roles, Next(roles, s), a - 1, b);
    } else if a > 0 {
      assert Run(roles, s, a + b) == s;
      RunStopped(roles, s, b);
    }
  }

  lemma RunStopped(roles: seq<string>, s: TypeState, n: nat)
    requires Inv(roles, s) && !StepArmed(roles, s)
    ensures Run(roles, s, n) == s
  {
  }

  /** The component's state as the step and hold timers update it. The roles
      are the ones the component was rendered with. */
  class Typewriter {
    const roles: seq<string>
    var currentRole: nat
    var displayText: string
    var isDeleting: bool
    var holdArmed: bool

    function State(): TypeState
      reads this
    {
      TypeState(currentRole, displayText, isDeleting, holdArmed)
    }

    ghost predicate Valid()
      reads this
    {
      Inv(roles, State())
    }

    constructor (roles: seq<string>)
      ensures Valid() && this.roles == roles && State() == Initial
    {
      this.roles := roles;
      currentRole, displayText, isDeleting, holdArmed := 0, "", false, false;
    }

    /** The step timer fires after `delay` ms: 50 while deleting, 100 while
        typing. */
    method Step() returns (delay: nat)
      requires Valid() && StepArmed(roles, State())
      modifies this
      ensures Valid() && State() == Next(roles, old(State()))
      ensures delay == if old(isDeleting) then DeletingDelay else TypingDelay
    {
      delay := if isDeleting then DeletingDelay else TypingDelay;
      var current := roles[currentRole];
      if !isDeleting {
        if |displayText| < |current| {
          displayText := current[..|displayText| + 1];
        } else {
          holdArmed := true;
        }
      } else {
        if |displayText| > 0 {
          displayText := current[..|displayText| - 1];
        } else {
          isDeleting := false;
          currentRole := (currentRole + 1) % |roles|;
        }
      }
    }

    /** The hold timer fires `HoldDelay` ms after the role was completed. */
    method FireHold() returns (delay: nat)
      requires Valid() && holdArmed
      modifies this
      ensures Valid() && State() == EndHold(roles, old(State()))
      ensures delay == HoldDelay
    {
      delay := HoldDelay;
      holdArmed := false;
      isDeleting := true;
    }
  }
}
