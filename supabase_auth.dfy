/** The authentication hook: the session state, the normalisation applied to what the
    user typed, and the translation of the server's error messages into the texts shown
    to the user. */
module SupabaseAuth {
  import opened Js
  import opened Strings
  import SupabaseConfig

  /** `email.toLowerCase().trim()`, sent by sign-in, sign-up and password reset. */
  function NormalizeEmail(email: string): (r: string)
    ensures forall i :: 0 <= i < |r| ==> !IsUpperAscii(r[i])
    ensures r == [] || (!IsSpace(r[0]) && !IsSpace(r[|r| - 1]))
    ensures exists i :: OccursAt(Lower(email), r, i)
    // only surrounding white space is cut off: the rest is the lowered address as typed
    ensures exists a, b :: 0 <= a <= b <= |email| && r == Lower(email[a..b]) &&
              forall i :: (0 <= i < a || b <= i < |email|) ==> IsSpace(email[i])
  {
    TrimIsSlice(Lower(email));
    TrimmedLowerHasNoUpper(email);
    TrimmedLowerCutsSpaceOnly(email);
    Trim(Lower(email))
  }

  /** Lower-casing commutes with trimming, so the result is the lowered slice of the
      address that trimming keeps, and only white space lies outside that slice. */
  lemma TrimmedLowerCutsSpaceOnly(email: string)
    ensures exists a, b :: 0 <= a <= b <= |email| && Trim(Lower(email)) == Lower(email[a..b]) &&
              forall i :: (0 <= i < a || b <= i < |email|) ==> IsSpace(email[i])
  {
    var a, b := TrimCutsSpaceOnly(email);
    LowerTrim(email);
    assert Trim(Lower(email)) == Lower(email[a..b]);
  }

  /** A slice of a text without capitals has none either. */
  lemma SliceHasNoUpper(s: string, t: string, k: int)
    requires forall i :: 0 <= i < |s| ==> !IsUpperAscii(s[i])
    requires OccursAt(s, t, k)
    ensures forall i :: 0 <= i < |t| ==> !IsUpperAscii(t[i])
  {
    assert forall j :: 0 <= j < |t| ==> t[j] == s[k + j];
  }

  /** Trimming keeps a slice of the lowered text, so no capital comes back. */
  lemma TrimmedLowerHasNoUpper(email: string)
    ensures forall i :: 0 <= i < |Trim(Lower(email))| ==> !IsUpperAscii(Trim(Lower(email))[i])
  {
    var l := Lower(email);
    var t := Trim(l);
    TrimIsSlice(l);
    var k :| OccursAt(l, t, k);
    SliceHasNoUpper(l, t, k);
  }

  /** Normalising a normalised address changes nothing. */
  lemma NormalizeEmailIdempotent(email: string)
    ensures NormalizeEmail(NormalizeEmail(email)) == NormalizeEmail(email)
  {
    var l := Lower(email);
    LowerTrim(l);
    LowerIdempotent(email);
    TrimIdempotent(l);
  }

  /** Addresses that differ only in the case of their letters normalise alike. */
  lemma NormalizeEmailIgnoresCase(email: string)
    ensures NormalizeEmail(Upper(email)) == NormalizeEmail(email)
  {
    LowerUpper(email);
  }

  /** Message rewriting by a list of rules `(pattern, replacement)`, tried in order: the
      position of the first rule whose pattern occurs in the message, `|rules|` if none. */
  function FirstMatch(rules: seq<(string, string)>, message: string): (k: nat)
    ensures k <= |rules|
    ensures forall j :: 0 <= j < k ==> !Contains(message, rules[j].0)
    ensures k < |rules| ==> Contains(message, rules[k].0)
  {
    if rules == [] then 0
    else if Contains(message, rules[0].0) then 0
    else 1 + FirstMatch(rules[1..], message)
  }

  /** The first matching rule's replacement; the message itself when no rule matches. */
  function Rewrite(rules: seq<(string, string)>, message: string): (r: string)
    ensures (forall j :: 0 <= j < |rules| ==> !Contains(message, rules[j].0)) ==> r == message
    ensures forall k ::
              (0 <= k < |rules| && Contains(message, rules[k].0) &&
               (forall j :: 0 <= j < k ==> !Contains(message, rules[j].0))) ==> r == rules[k].1
  {
    var k := FirstMatch(rules, message);
    if k < |rules| then rules[k].1 else message
  }

  const InvalidCredentialsMessage: string := "Invalid email or password. Please check your credentials and try again."
  const EmailNotConfirmedMessage: string := "Please verify your email address before signing in."
  const RateLimitMessage: string := "Too many login attempts. Please try again later."
  const AlreadyRegisteredMessage: string := "This email is already registered. Please sign in or use a different email."
  const WeakPasswordMessage: string := "Password is too weak. Please use a stronger password."

  /** The sign-in translations, in the order they are tested. */
  const SignInRules: seq<(string, string)> := [
    ("Invalid login credentials", InvalidCredentialsMessage),
    ("Email not confirmed", EmailNotConfirmedMessage),
    ("rate limit", RateLimitMessage)]

  /** The sign-up translations, in the order they are tested. */
  const SignUpRules: seq<(string, string)> := [
    ("already registered", AlreadyRegisteredMessage),
    ("password", WeakPasswordMessage)]

  /** `signIn`'s `if`/`else if` chain over the server's message. */
  function SignInErrorMessage(message: string): (r: string)
    ensures r == Rewrite(SignInRules, message)
  {
    assert SignInRules[0].0 == "Invalid login credentials" && SignInRules[1].0 == "Email not confirmed";
    assert SignInRules[2].0 == "rate limit";
    if Contains(message, "Invalid login credentials") then InvalidCredentialsMessage
    else if Contains(message, "Email not confirmed") then EmailNotConfirmedMessage
    else if Contains(message, "rate limit") then RateLimitMessage
    else message
  }

  /** `signUp`'s chain: an already registered address is reported before any mention of
      the password. */
  function SignUpErrorMessage(message: string): (r: string)
    ensures r == Rewrite(SignUpRules, message)
  {
    assert SignUpRules[0].0 == "already registered" && SignUpRules[1].0 == "password";
    if Contains(message, "already registered") then AlreadyRegisteredMessage
    else if Contains(message, "password") then WeakPasswordMessage
    else message
  }

  /** A message naming both an unknown login and a rate limit is reported as bad
      credentials. */
  lemma CredentialsBeforeRateLimit(head: string, tail: string)
    ensures SignInErrorMessage(head + "Invalid login credentials" + tail) == InvalidCredentialsMessage
  {
    var m := head + "Invalid login credentials" + tail;
    assert OccursAt(m, "Invalid login credentials", |head|) by {
      assert m[|head|..|head| + 25] == "Invalid login credentials";
    }
    ContainsIff(m, "Invalid login credentials");
  }

  /** The metadata attached to a new account. */
  datatype SignUpMetadata = SignUpMetadata(firstName: string, lastName: string, referralCode: Option<string>)

  /** Trimmed names, and `referralCode?.trim() || null`. */
  function Metadata(firstName: string, lastName: string, referralCode: Option<string>): (m: SignUpMetadata)
    ensures m.firstName == Trim(firstName) && m.lastName == Trim(lastName)
    ensures m.referralCode.None? <==> referralCode.None? || Trim(referralCode.value) == ""
    ensures m.referralCode.Some? ==> m.referralCode.value == Trim(referralCode.value)
  {
    SignUpMetadata(Trim(firstName), Trim(lastName),
      if referralCode.Some? && Trim(referralCode.value) != "" then Some(Trim(referralCode.value)) else None)
  }

  /** A code of white space only is dropped; a kept code has no white space at its ends,
      and feeding it back in keeps it as it is. */
  lemma ReferralCodeNormalised(firstName: string, lastName: string, code: string)
    ensures Metadata(firstName, lastName, Some(code)).referralCode.None? <==> forall i :: 0 <= i < |code| ==> IsSpace(code[i])
    ensures var kept := Metadata(firstName, lastName, Some(code)).referralCode;
            kept.Some? ==> Metadata(firstName, lastName, kept).referralCode == kept
  {
    TrimEmptyIff(code);
    TrimIdempotent(code);
  }

  /** The signed-in session, as far as the hook keeps it. */
  datatype Session = Session(userId: string, accessToken: string)

  /** What an authentication call answers: no error, an `error` object carrying a
      message, or a thrown value. */
  datatype Reply = Done | ErrorReply(message: string) | Threw(failure: Failure)

  /** `AuthResult`: `{ success: true }` or `{ success: false, error }`. */
  datatype AuthResult = AuthResult(success: bool, error: Option<string>)

  const SignInFallback: string := "Failed to sign in"
  const SignUpFallback: string := "Failed to create account"
  const SignOutFallback: string := "Failed to sign out"
  const ResetFallback: string := "Failed to send reset email"
  const InitializeFallback: string := "Failed to initialize authentication"

  /** The result of one operation: success without an error, the server's message after
      the operation's rules, or the thrown error's message (or the fallback when what was
      thrown is not an `Error`). */
  function ResultOf(reply: Reply, rules: seq<(string, string)>, fallback: string): (r: AuthResult)
    ensures r.success <==> reply.Done?
    ensures r.success <==> r.error.None?
    ensures reply.ErrorReply? ==> r.error == Some(Rewrite(rules, reply.message))
    ensures reply.Threw? ==> r.error == Some(ErrorText(reply.failure, fallback))
  {
    match reply
    case Done => AuthResult(true, None)
    case ErrorReply(message) => AuthResult(false, Some(Rewrite(rules, message)))
    case Threw(f) => AuthResult(false, Some(ErrorText(f, fallback)))
  }

  /** The reply an authentication call of the stand-in client produces: its rejection
      with `new Error(configError)`. */
  function MockReply(configError: string, call: SupabaseConfig.Call): (r: Reply)
    requires call in {SupabaseConfig.SignUp, SupabaseConfig.SignInWithPassword, SupabaseConfig.SignOut}
    ensures r == Threw(Failure(configError, true))
  {
    SupabaseConfig.MockFailsWithConfigError(configError, call);
    Threw(Failure(SupabaseConfig.MockCall(configError, call).message, true))
  }

  /** Through the stand-in client, signing in, signing up and signing out all fail with
      the configuration error as their message. */
  lemma MockClientOperationsFail(configError: string)
    ensures ResultOf(MockReply(configError, SupabaseConfig.SignInWithPassword), SignInRules, SignInFallback)
            == AuthResult(false, Some(configError))
    ensures ResultOf(MockReply(configError, SupabaseConfig.SignUp), SignUpRules, SignUpFallback)
            == AuthResult(false, Some(configError))
    ensures ResultOf(MockReply(configError, SupabaseConfig.SignOut), [], SignOutFallback)
            == AuthResult(false, Some(configError))
  {
  }

  /** Through the stand-in client, `resetPassword` fails too, but not with the
      configuration message: the stand-in has no `resetPasswordForEmail`, so the call
      throws a `TypeError`, an `Error` whose engine-supplied text becomes the error. */
  lemma MockResetPasswordFails(configError: string, typeErrorText: string)
    ensures SupabaseConfig.MockCall(configError, SupabaseConfig.ResetPasswordForEmail) == SupabaseConfig.NotAFunction
    ensures ResultOf(Threw(Failure(typeErrorText, true)), [], ResetFallback) == AuthResult(false, Some(typeErrorText))
  {
  }

  /** What `getSession` answers: a session (or `null`) with an optional error, or a
      throw. */
  datatype SessionReply = SessionData(session: Option<Session>, error: Option<Failure>) | SessionThrew

  /** The hook's state: `session`, `isLoading` and `error`. */
  class AuthHook {
    var session: Option<Session>
    var isLoading: bool
    var error: Option<string>

    constructor ()
      ensures session == None && isLoading && error == None
    {
      session, isLoading, error := None, true, None;
    }

    /** `initializeAuth`, with the component mounted: an error from `getSession` is
        recorded and the session kept, otherwise the session is taken; loading ends. */
    method InitializeAuth(reply: SessionReply)
      modifies this
      ensures !isLoading
      ensures reply.SessionData? && reply.error.None? ==> session == reply.session && error == old(error)
      ensures reply.SessionData? && reply.error.Some? ==>
                session == old(session) && error == Some(reply.error.value.message)
      ensures reply.SessionThrew? ==> session == old(session) && error == Some(InitializeFallback)
    {
      match reply {
        case SessionData(s, e) =>
          if e.Some? {
            error := Some(e.value.message);
          } else {
            session := s;
          }
        case SessionThrew =>
          error := Some(InitializeFallback);
      }
      isLoading := false;
    }

    /** The `onAuthStateChange` listener: takes the new session and ends loading. */
    method OnAuthStateChange(s: Option<Session>)
      modifies this
      ensures session == s && !isLoading && error == old(error)
    {
      session := s;
      isLoading := false;
    }

    /** `signIn`: sends the normalised address and reports the outcome. */
    method SignIn(email: string, password: string, reply: Reply) returns (result: AuthResult, sentEmail: string)
      modifies this
      ensures sentEmail == NormalizeEmail(email)
      ensures result == ResultOf(reply, SignInRules, SignInFallback)
      ensures error == result.error && !isLoading && session == old(session)
    {
      error, isLoading := None, true;
      sentEmail := NormalizeEmail(email);
      match reply {
        case Done =>
          result := AuthResult(true, None);
        case ErrorReply(message) =>
          var errorMessage := SignInErrorMessage(message);
          error := Some(errorMessage);
          result := AuthResult(false, Some(errorMessage));
        case Threw(f) =>
          var message := ErrorText(f, SignInFallback);
          error := Some(message);
          result := AuthResult(false, Some(message));
      }
      isLoading := false;
    }

    /** `signUp`: sends the normalised address with the trimmed metadata and reports the
        outcome. */
    method SignUp(email: string, password: string, firstName: string, lastName: string,
                  referralCode: Option<string>, reply: Reply)
        returns (result: AuthResult, sentEmail: string, sentMetadata: SignUpMetadata)
      modifies this
      ensures sentEmail == NormalizeEmail(email)
      ensures sentMetadata == Metadata(firstName, lastName, referralCode)
      ensures result == ResultOf(reply, SignUpRules, SignUpFallback)
      ensures error == result.error && !isLoading && session == old(session)
    {
      error, isLoading := None, true;
      sentEmail := NormalizeEmail(email);
      result := SettleSignUp(reply);
      isLoading := false;
      sentMetadata := Metadata(firstName, lastName, referralCode);
    }

    /** The tail of `signUp`: the server's message after the sign-up rules, recorded. */
    method SettleSignUp(reply: Reply) returns (result: AuthResult)
      modifies this
      ensures result == ResultOf(reply, SignUpRules, SignUpFallback)
      ensures result.success ==> error == old(error)
      ensures !result.success ==> error == result.error
      ensures isLoading == old(isLoading) && session == old(session)
    {
      match reply {
        case Done =>
          result := AuthResult(true, None);
        case ErrorReply(message) =>
          var errorMessage := SignUpErrorMessage(message);
          error := Some(errorMessage);
          result := AuthResult(false, Some(errorMessage));
        case Threw(f) =>
          var message := ErrorText(f, SignUpFallback);
          error := Some(message);
          result := AuthResult(false, Some(message));
      }
    }

    /** `signOut`: the server's message is passed through as it is. */
    method SignOut(reply: Reply) returns (result: AuthResult)
      modifies this
      ensures result == ResultOf(reply, [], SignOutFallback)
      ensures error == result.error && !isLoading && session == old(session)
    {
      error, isLoading := None, true;
      result := Settle(reply, SignOutFallback);
      isLoading := false;
    }

    /** `resetPassword`: sends the normalised address; the server's message is passed
        through as it is. */
    method ResetPassword(email: string, reply: Reply) returns (result: AuthResult, sentEmail: string)
      modifies this
      ensures sentEmail == NormalizeEmail(email)
      ensures result == ResultOf(reply, [], ResetFallback)
      ensures error == result.error && !isLoading && session == old(session)
    {
      error, isLoading := None, true;
      sentEmail := NormalizeEmail(email);
      result := Settle(reply, ResetFallback);
      isLoading := false;
    }

    /** The common tail of `signOut` and `resetPassword`: record and return the error. */
    method Settle(reply: Reply, fallback: string) returns (result: AuthResult)
      modifies this
      ensures result == ResultOf(reply, [], fallback)
      ensures result.success ==> error == old(error)
      ensures !result.success ==> error == result.error
      ensures isLoading == old(isLoading) && session == old(session)
    {
      match reply {
        case Done =>
          result := AuthResult(true, None);
        case ErrorReply(message) =>
          error := Some(message);
          result := AuthResult(false, Some(message));
        case Threw(f) =>
          var message := ErrorText(f, fallback);
          error := Some(message);
          result := AuthResult(false, Some(message));
      }
    }
  }
}
