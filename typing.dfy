/**
 * The typing animation of the hero banner (main.js:26-60).
 *
 * The closure state of `typeRole` is four variables -- the role being shown,
 * how many of its characters are shown, whether the animation is deleting,
 * and the delay before the next step -- plus the text of the element. One call
 * of `typeRole` is one `Step`; the `setTimeout` that schedules the next call
 * is not modelled, its delay is kept as `speed`.
 */
module Typing {

  /** The role strings of main.js:26-31. */
  const Roles: seq<string> := [
    "GenAI Engineer",
    "Full Stack Software Engineer",
    "Backend Engineer",
    "Graduate Student at Northeastern, Boston, MA"
  ]

  /** The four delays typeRole can choose, in milliseconds. */
  const TypeDelay := 80
  const DeleteDelay := 40
  const HoldDelay := 2000
  const NextRoleDelay := 500

  datatype TypingState = TypingState(
    roleIndex: int,
    charIndex: int,
    deleting: bool,
    speed: int,
    text: string)

  /** The state the closure starts in (main.js:32-35); the element is empty. */
  function Initial(): TypingState {
    TypingState(0, 0, false, TypeDelay, "")
  }

  /** Every role can be typed: there is one, and none is empty. */
  predicate WellFormed(roles: seq<string>) {
    |roles| > 0 && forall i :: 0 <= i < |roles| ==> |roles[i]| > 0
  }

  /** `s.substring(0, n)` for a non-negative start: the end is clamped into [0, |s|]. */
  function Prefix(s: string, n: int): (p: string)
    ensures |p| == if n < 0 then 0 else if n > |s| then |s| else n
    ensures p <= s
  {
    if n <= 0 then "" else if n >= |s| then s else s[..n]
  }

  /**
   * The states the animation can be in between two calls: the index names a
   * role, the shown prefix is never empty while deleting and never the whole
   * role while typing, and the element shows exactly that prefix.
   */
  predicate Inv(roles: seq<string>, s: TypingState) {
    && WellFormed(roles)
    && 0 <= s.roleIndex < |roles|
    && 0 <= s.charIndex <= |roles[s.roleIndex]|
    && (s.deleting ==> 1 <= s.charIndex)
    && (!s.deleting ==> s.charIndex < |roles[s.roleIndex]|)
    && s.text == roles[s.roleIndex][..s.charIndex]
  }

  /** One call of `typeRole` (main.js:37-57). */
  function Step(roles: seq<string>, s: TypingState): (r: TypingState)
    requires 0 <= s.roleIndex < |roles|
    // the invariant is kept
    ensures Inv(roles, s) ==> Inv(roles, r)
    // the delay chosen is always one of the four
    ensures r.speed in {TypeDelay, DeleteDelay, HoldDelay, NextRoleDelay}
    // the role only ever moves on cyclically, and exactly when deleting empties the text
    ensures r.roleIndex == if s.deleting && s.charIndex == 1
                           then (s.roleIndex + 1) % |roles| else s.roleIndex
    ensures r.speed == NextRoleDelay <==> s.deleting && s.charIndex == 1
    // typing switches to deleting exactly when the whole role is shown, after the long hold
    ensures !s.deleting ==> (r.deleting <==> s.charIndex + 1 == |roles[s.roleIndex]|)
    ensures !s.deleting && r.deleting ==> r.speed == HoldDelay
  {
    var role := roles[s.roleIndex];
    var (text, chars, speed) :=
      if s.deleting then (Prefix(role, s.charIndex - 1), s.charIndex - 1, DeleteDelay)
      else (Prefix(role, s.charIndex + 1), s.charIndex + 1, TypeDelay);
    if !s.deleting && chars == |role| then
      TypingState(s.roleIndex, chars, true, HoldDelay, text)
    else if s.deleting && chars == 0 then
      TypingState((s.roleIndex + 1) % |roles|, chars, false, NextRoleDelay, text)
    else
      TypingState(s.roleIndex, chars, s.deleting, speed, text)
  }

  /** `k` consecutive calls of `typeRole`. */
  function Run(roles: seq<string>, s: TypingState, k: nat): (r: TypingState)
    requires Inv(roles, s)
    ensures Inv(roles, r)
    decreases k
  {
    if k == 0 then s else Run(roles, Step(roles, s), k - 1)
  }

  /** Running `j` steps and then `k` more is running `j + k` steps. */
  lemma {:induction false} RunAdditive(roles: seq<string>, s: TypingState, j: nat, k: nat)
    requires Inv(roles, s)
    ensures Run(roles, Run(roles, s, j), k) == Run(roles, s, j + k)
    decreases j
  {
    if j > 0 {
      var next := Step(roles, s);
      assert Run(roles, s, j) == Run(roles, next, j - 1);
      assert Run(roles, s, j + k) == Run(roles, next, j - 1 + k);
      RunAdditive(roles, next, j - 1, k);
    }
  }

  /**
   * Typing from any shown prefix of length `c` reaches the whole role after
   * `|role| - c` steps, with deletion switched on and the long hold chosen.
   */
  lemma {:induction false} TypesToEnd(roles: seq<string>, s: TypingState)
    requires Inv(roles, s) && !s.deleting
    ensures Run(roles, s, |roles[s.roleIndex]| - s.charIndex)
         == TypingState(s.roleIndex, |roles[s.roleIndex]|, true, HoldDelay, roles[s.roleIndex])
    decreases |roles[s.roleIndex]| - s.charIndex
  {
    var role := roles[s.roleIndex];
    var next := Step(roles, s);
    if s.charIndex + 1 == |role| {
      assert next == TypingState(s.roleIndex, |role|, true, HoldDelay, role);
    } else {
      assert next == TypingState(s.roleIndex, s.charIndex + 1, false, TypeDelay, role[..s.charIndex + 1]);
      TypesToEnd(roles, next);
    }
  }

  /**
   * Deleting from a shown prefix of length `c` empties the element after `c`
   * steps and lands on the first character of the next role.
   */
  lemma {:induction false} DeletesToStart(roles: seq<string>, s: TypingState)
    requires Inv(roles, s) && s.deleting
    ensures Run(roles, s, s.charIndex)
         == TypingState((s.roleIndex + 1) % |roles|, 0, false, NextRoleDelay, "")
    decreases s.charIndex
  {
    var role := roles[s.roleIndex];
    var next := Step(roles, s);
    if s.charIndex == 1 {
      assert next == TypingState((s.roleIndex + 1) % |roles|, 0, false, NextRoleDelay, "");
    } else {
      assert next == TypingState(s.roleIndex, s.charIndex - 1, true, DeleteDelay, role[..s.charIndex - 1]);
      DeletesToStart(roles, next);
    }
  }

  /**
   * One full cycle: from the empty element of role `r`, after exactly
   * `2 * |roles[r]|` calls the animation is at the empty element of the next
   * role in cyclic order, about to type it.
   */
  lemma {:induction false} FullCycle(roles: seq<string>, r: int, speed: int)
    requires WellFormed(roles) && 0 <= r < |roles|
    ensures Inv(roles, TypingState(r, 0, false, speed, ""))
    ensures Run(roles, TypingState(r, 0, false, speed, ""), 2 * |roles[r]|)
         == TypingState((r + 1) % |roles|, 0, false, NextRoleDelay, "")
  {
    var start := TypingState(r, 0, false, speed, "");
    var n := |roles[r]|;
    TypesToEnd(roles, start);
    var full := Run(roles, start, n);
    DeletesToStart(roles, full);
    RunAdditive(roles, start, n, n);
  }

  /**
   * The animation's closure variables and the element's text, updated in place
   * by each call of `typeRole`.
   */
  class RoleTyper {
    const roles: seq<string>
    var roleIndex: int
    var charIndex: int
    var isDeleting: bool
    var typingSpeed: int
    var text: string

    function State(): TypingState
      reads this
    {
      TypingState(roleIndex, charIndex, isDeleting, typingSpeed, text)
    }

    ghost predicate Valid()
      reads this
    {
      Inv(roles, State())
    }

    constructor ()
      ensures Valid() && roles == Roles && State() == Initial()
    {
      roles := Roles;
      roleIndex, charIndex, isDeleting, typingSpeed := 0, 0, false, TypeDelay;
      text := "";
    }

    /** main.js:37-57 */
    method TypeRole()
      requires Valid()
      modifies this
      ensures Valid() && State() == Step(roles, old(State()))
    {
      var currentRole := roles[roleIndex];
      if isDeleting {
        text := Prefix(currentRole, charIndex - 1);
        charIndex := charIndex - 1;
        typingSpeed := DeleteDelay;
      } else {
        text := Prefix(currentRole, charIndex + 1);
        charIndex := charIndex + 1;
        typingSpeed := TypeDelay;
      }
      if !isDeleting && charIndex == |currentRole| {
        typingSpeed := HoldDelay;
        isDeleting := true;
      } else if isDeleting && charIndex == 0 {
        isDeleting := false;
        roleIndex := (roleIndex + 1) % |roles|;
        typingSpeed := NextRoleDelay;
      }
    }
  }
}
