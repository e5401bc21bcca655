/** The mock sign-in form of app/components/Auth.tsx: the user it hands to the
    login callback, with the username derived from the typed name, and the
    loading and mode flags. The timer is modelled by handing the values the
    timeout closure captured to a second method. */
module Auth {
  import opened Js
  import opened Types

  const MockId := "me"
  const LoginName := "Jordan Foodie"
  const LoginUsername := "jordan_eats"
  const MockAvatar := "https://picsum.photos/seed/dishdrop-me/200/200"
  const MockBio := "Searching for the world's best bao bun. Part-time chef, full-time critic."
  /** The simulated latency of the sign-in call, in milliseconds. */
  const LoginDelay: nat := 1500

  /** What is left of `s` once a leading run of white space is removed. */
  function SkipWhitespace(s: string): (r: string)
    ensures |r| <= |s| && r == s[|s| - |r|..]
    ensures IsBlank(s[..|s| - |r|])
    ensures r == [] || !IsWhitespace(r[0])
  {
    if s != [] && IsWhitespace(s[0]) then SkipWhitespace(s[1..]) else s
  }

  /** `s.replace(/\s+/g, '_')`: every maximal run of white space becomes one '_'. */
  function Underscored(s: string): (r: string)
    ensures NoWhitespace(r)
    ensures |r| <= |s|
    decreases |s|
  {
    if s == [] then []
    else if IsWhitespace(s[0]) then "_" + Underscored(SkipWhitespace(s[1..]))
    else [s[0]] + Underscored(s[1..])
  }

  /** The sign-up username: the name lower-cased, then white space runs underscored. */
  function Slug(name: string): (r: string)
    ensures NoWhitespace(r)
    ensures |r| <= |name|
  {
    Underscored(LowerStr(name))
  }

  /** Skipping a blank prefix lands on the first non-white character. */
  lemma {:induction false} SkipBlankPrefix(run: string, t: string)
    requires IsBlank(run)
    requires t == [] || !IsWhitespace(t[0])
    ensures SkipWhitespace(run + t) == t
  {
    if run != [] {
      assert (run + t)[1..] == run[1..] + t;
      SkipBlankPrefix(run[1..], t);
    }
  }

  /** A word without white space is kept as it is. */
  lemma {:induction false} UnderscoredWord(w: string)
    requires NoWhitespace(w)
    ensures Underscored(w) == w
  {
    if w != [] {
      UnderscoredWord(w[1..]);
    }
  }

  /** A word, a non-empty white space run and a rest starting with a
      non-white character: the run becomes exactly one '_'. */
  lemma {:induction false} UnderscoredJoin(w: string, run: string, t: string)
    requires NoWhitespace(w)
    requires run != [] && IsBlank(run)
    requires t == [] || !IsWhitespace(t[0])
    ensures Underscored(w + run + t) == w + "_" + Underscored(t)
  {
    if w == [] {
      assert w + run + t == run + t;
      assert (run + t)[1..] == run[1..] + t;
      SkipBlankPrefix(run[1..], t);
    } else {
      assert (w + run + t)[1..] == w[1..] + run + t;
      UnderscoredJoin(w[1..], run, t);
    }
  }

  /** The user handed to `onLogin`; in login mode the typed name is ignored. */
  function MockUser(isLogin: bool, name: string): (u: User)
    ensures u.id == "me" && u.following == 0 && u.followers == 0
    ensures u.avatar == MockAvatar && u.bio == MockBio
    ensures isLogin ==> u.name == "Jordan Foodie" && u.username == "jordan_eats"
    ensures !isLogin ==> u.name == name && u.username == Slug(name) && NoWhitespace(u.username)
  {
    User(
      id := MockId,
      name := if isLogin then LoginName else name,
      username := if isLogin then LoginUsername else Slug(name),
      avatar := MockAvatar,
      bio := MockBio,
      following := 0,
      followers := 0)
  }

  /** Login mode gives the same user whatever was typed. */
  lemma LoginIgnoresName(a: string, b: string)
    ensures MockUser(true, a) == MockUser(true, b)
  {
  }

  /** A two-word sign-up name: the words, lower-cased, joined by one '_'. */
  lemma SignUpUsername(first: string, gap: string, last: string)
    requires NoWhitespace(first) && NoWhitespace(last) && last != []
    requires gap != [] && IsBlank(gap)
    ensures MockUser(false, first + gap + last).username == LowerStr(first) + "_" + LowerStr(last)
  {
    LowerConcat(first, gap, last);
    var lf, lg, ll := LowerStr(first), LowerStr(gap), LowerStr(last);
    assert NoWhitespace(lf) && NoWhitespace(ll) && IsBlank(lg);
    assert !IsWhitespace(ll[0]);
    UnderscoredJoin(lf, lg, ll);
    UnderscoredWord(ll);
  }

  /** Lower-casing works character by character, so it distributes over concatenation. */
  lemma LowerConcat(a: string, b: string, c: string)
    ensures LowerStr(a + b + c) == LowerStr(a) + LowerStr(b) + LowerStr(c)
  {
    var l, r := LowerStr(a + b + c), LowerStr(a) + LowerStr(b) + LowerStr(c);
    assert |l| == |r|;
    forall i | 0 <= i < |l|
      ensures l[i] == r[i]
    {
      if i < |a| {
      } else if i < |a| + |b| {
      } else {
      }
    }
  }

  /** What the timeout's closure captured when the form was submitted. */
  datatype PendingLogin = PendingLogin(isLogin: bool, name: string, delay: nat)

  class AuthForm {
    var isLogin: bool
    var email: string
    var password: string
    var name: string
    var isLoading: bool

    constructor ()
      ensures isLogin && email == "" && password == "" && name == "" && !isLoading
    {
      isLogin, email, password, name, isLoading := true, "", "", "", false;
    }

    method SetEmail(value: string)
      modifies this
      ensures email == value
      ensures isLogin == old(isLogin) && password == old(password) && name == old(name) && isLoading == old(isLoading)
    {
      email := value;
    }

    method SetPassword(value: string)
      modifies this
      ensures password == value
      ensures isLogin == old(isLogin) && email == old(email) && name == old(name) && isLoading == old(isLoading)
    {
      password := value;
    }

    method SetName(value: string)
      modifies this
      ensures name == value
      ensures isLogin == old(isLogin) && email == old(email) && password == old(password) && isLoading == old(isLoading)
    {
      name := value;
    }

    /** `handleSubmit`: loading starts and the timer is armed with the current mode and name. */
    method HandleSubmit() returns (pending: PendingLogin)
      modifies this
      ensures isLoading
      ensures pending == PendingLogin(old(isLogin), old(name), LoginDelay)
      ensures isLogin == old(isLogin) && email == old(email) && password == old(password) && name == old(name)
    {
      isLoading := true;
      pending := PendingLogin(isLogin, name, LoginDelay);
    }

    /** The timeout callback: the mock user goes to `onLogin`, then loading ends. */
    method OnTimeout(pending: PendingLogin) returns (loggedIn: User)
      modifies this
      ensures loggedIn == MockUser(pending.isLogin, pending.name)
      ensures !isLoading
      ensures isLogin == old(isLogin) && email == old(email) && password == old(password) && name == old(name)
    {
      loggedIn := MockUser(pending.isLogin, pending.name);
      isLoading := false;
    }

    /** Submit followed by the timeout with no edits in between. */
    method Submit() returns (loggedIn: User)
      modifies this
      ensures loggedIn == MockUser(old(isLogin), old(name))
      ensures !isLoading
      ensures isLogin == old(isLogin) && email == old(email) && password == old(password) && name == old(name)
    {
      var pending := HandleSubmit();
      loggedIn := OnTimeout(pending);
    }

    /** The mode link under the form. */
    method ToggleMode()
      modifies this
      ensures isLogin == !old(isLogin)
      ensures email == old(email) && password == old(password) && name == old(name) && isLoading == old(isLoading)
    {
      isLogin := !isLogin;
    }
  }
}
