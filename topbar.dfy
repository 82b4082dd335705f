/**
 * What the top bar derives from the session (src/app/components/Topbar.tsx):
 * the name it greets the user with, the avatar shown beside it, and whether
 * the cart badge appears.
 */
module Topbar {
  import opened Types
  import opened CartLines
  import opened FirebaseConfig

  /** The first piece of `s` split at '@': the text before the first '@', or all of `s` without one. */
  function BeforeAt(s: string): (r: string)
    ensures r <= s
    ensures '@' !in r
    ensures r == s || s[|r|] == '@'
  {
    if s == [] then []
    else if s[0] == '@' then []
    else [s[0]] + BeforeAt(s[1..])
  }

  /** A string is the whole text before the first '@' exactly when it is the result. */
  lemma BeforeAtUnique(s: string, r: string)
    requires r <= s && '@' !in r && (r == s || s[|r|] == '@')
    ensures r == BeforeAt(s)
  {
  }

  /** The part before '@' is empty exactly when the text is empty or starts with '@'. */
  lemma BeforeAtEmpty(s: string)
    ensures BeforeAt(s) == [] <==> s == [] || s[0] == '@'
  {
  }

  /** A JavaScript value of type `string | null | undefined` in a truth test. */
  predicate Truthy(s: Option<string>) {
    s.Some? && s.value != ""
  }

  /**
   * The name the top bar greets with: the profile's display name when it is
   * non-empty, else the stored name when non-empty, else the part of a
   * non-empty e-mail before its first '@', else "User".
   */
  function DisplayName(firebaseUser: Option<FirebaseUser>, user: Option<UserDoc>): string {
    if firebaseUser.Some? && Truthy(firebaseUser.value.displayName) then firebaseUser.value.displayName.value
    else if user.Some? && Truthy(user.value.name) then user.value.name.value
    else if user.Some? && Truthy(user.value.email) then BeforeAt(user.value.email.value)
    else "User"
  }

  /**
   * The fallback chain: the profile's name when it has one, else the stored
   * name, else the e-mail's local part, else "User".
   */
  lemma DisplayNameChain(firebaseUser: Option<FirebaseUser>, user: Option<UserDoc>)
    ensures firebaseUser.Some? && Truthy(firebaseUser.value.displayName) ==>
      DisplayName(firebaseUser, user) == firebaseUser.value.displayName.value
    ensures !(firebaseUser.Some? && Truthy(firebaseUser.value.displayName)) && user.Some? && Truthy(user.value.name) ==>
      DisplayName(firebaseUser, user) == user.value.name.value
    ensures !(firebaseUser.Some? && Truthy(firebaseUser.value.displayName)) && !(user.Some? && Truthy(user.value.name)) ==>
      if user.Some? && Truthy(user.value.email) then
        var e, n := user.value.email.value, DisplayName(firebaseUser, user);
        n <= e && '@' !in n && (n == e || e[|n|] == '@')
      else DisplayName(firebaseUser, user) == "User"
  {
  }

  /**
   * The name shown is empty only through an e-mail that starts with '@',
   * when neither name source has a value.
   */
  lemma DisplayNameEmpty(firebaseUser: Option<FirebaseUser>, user: Option<UserDoc>)
    ensures DisplayName(firebaseUser, user) == "" <==>
      && !(firebaseUser.Some? && Truthy(firebaseUser.value.displayName))
      && user.Some? && !Truthy(user.value.name) && Truthy(user.value.email)
      && user.value.email.value[0] == '@'
  {
    if !(firebaseUser.Some? && Truthy(firebaseUser.value.displayName)) && user.Some? && !Truthy(user.value.name)
       && Truthy(user.value.email) {
      BeforeAtEmpty(user.value.email.value);
    }
  }

  /** `toUpperCase` on one character, for the ASCII letters. */
  function UpperAscii(c: char): (u: char)
    ensures 'a' <= c <= 'z' ==> 'A' <= u <= 'Z' && u as int == c as int - 32
    ensures !('a' <= c <= 'z') ==> u == c
  {
    if 'a' <= c <= 'z' then (c as int - 32) as char else c
  }

  /** The avatar letter: the upper-cased first character of the name, nothing for an empty name. */
  function Initial(name: string): (i: Option<char>)
    ensures i.None? <==> name == []
    ensures i.Some? ==> i.value == UpperAscii(name[0])
  {
    if name == [] then None else Some(UpperAscii(name[0]))
  }

  /** What the desktop avatar shows. */
  datatype Avatar = Photo(url: string) | Letter(initial: Option<char>)

  /** The profile photo when the profile has one, otherwise the initial of the shown name. */
  function DesktopAvatar(firebaseUser: Option<FirebaseUser>, user: Option<UserDoc>): (a: Avatar)
    ensures firebaseUser.Some? && Truthy(firebaseUser.value.photoURL) ==> a == Photo(firebaseUser.value.photoURL.value)
    ensures !(firebaseUser.Some? && Truthy(firebaseUser.value.photoURL)) ==>
      a.Letter? && (a.initial.None? <==> DisplayName(firebaseUser, user) == "")
  {
    if firebaseUser.Some? && Truthy(firebaseUser.value.photoURL) then Photo(firebaseUser.value.photoURL.value)
    else Letter(Initial(DisplayName(firebaseUser, user)))
  }

  /**
   * The avatar shows no letter exactly when the name is empty, that is, for
   * an e-mail starting with '@' and no name on either side.
   */
  lemma NoInitialIff(firebaseUser: Option<FirebaseUser>, user: Option<UserDoc>)
    ensures Initial(DisplayName(firebaseUser, user)).None? <==>
      && !(firebaseUser.Some? && Truthy(firebaseUser.value.displayName))
      && user.Some? && !Truthy(user.value.name) && Truthy(user.value.email)
      && user.value.email.value[0] == '@'
  {
    DisplayNameEmpty(firebaseUser, user);
  }

  /** The badge over the cart icon appears for a positive count. */
  predicate BadgeShown(cartCount: int) {
    cartCount > 0
  }

  /** With well-formed lines the badge is shown exactly when the cart has a line. */
  lemma BadgeIffLines(c: seq<CartItem>)
    requires WellFormed(c)
    ensures BadgeShown(Count(c)) <==> c != []
  {
    CountBoundsLines(c);
  }
}
