/** The Supabase client module: where the project URL and the anonymous key come from,
    the checks made on them once at load, and the choice between the real client and a
    stand-in that fails every call with the configuration error. */
module SupabaseConfig {
  import opened Js
  import opened Strings

  const MissingMessage: string := "Missing Supabase environment variables. Please check your .env file."
  const InvalidUrlMessage: string := "Invalid Supabase URL format. Please check your EXPO_PUBLIC_SUPABASE_URL in .env file."
  const InvalidKeyMessage: string := "Invalid Supabase anon key. Please check your EXPO_PUBLIC_SUPABASE_ANON_KEY in .env file."

  /** The marker of a key copied unchanged from a template. */
  const PlaceholderMarker: string := "your-"

  /** The two places each setting is read from: `Constants.expoConfig?.extra` (absent
      when either level is missing) and `process.env`. */
  datatype Sources = Sources(extraUrl: Option<string>, envUrl: Option<string>,
                             extraKey: Option<string>, envKey: Option<string>)

  /** `EXPO_PUBLIC_SUPABASE_URL`: the Expo value when it is truthy, else the environment's. */
  function SupabaseUrl(src: Sources): (url: Option<string>)
    ensures Truthy(src.extraUrl) ==> url == src.extraUrl
    ensures !Truthy(src.extraUrl) ==> url == src.envUrl
  {
    OrOption(src.extraUrl, src.envUrl)
  }

  /** `EXPO_PUBLIC_SUPABASE_ANON_KEY`, by the same precedence. */
  function SupabaseAnonKey(src: Sources): (key: Option<string>)
    ensures Truthy(src.extraKey) ==> key == src.extraKey
    ensures !Truthy(src.extraKey) ==> key == src.envKey
  {
    OrOption(src.extraKey, src.envKey)
  }

  /** `validateSupabaseConfig`: the first failing check's message, or `None` (`null`).
      `parses` stands for `new URL(url)` not throwing. */
  function ValidateConfig(url: Option<string>, key: Option<string>, parses: string -> bool): (err: Option<string>)
    ensures err.None? <==> Truthy(url) && Truthy(key) && parses(url.value) && !Contains(key.value, PlaceholderMarker)
    ensures err.Some? ==> err.value in {MissingMessage, InvalidUrlMessage, InvalidKeyMessage}
    // the presence check comes first: nothing about the URL or the key is looked at before it
    ensures !Truthy(url) || !Truthy(key) <==> err == Some(MissingMessage)
    ensures Truthy(url) && Truthy(key) ==> (err == Some(InvalidUrlMessage) <==> !parses(url.value))
    // the key test is reached with a non-empty key only, so only the marker decides it
    ensures Truthy(url) && Truthy(key) && parses(url.value) ==>
              (err == Some(InvalidKeyMessage) <==> Contains(key.value, PlaceholderMarker))
  {
    if !Truthy(url) || !Truthy(key) then Some(MissingMessage)
    else if !parses(url.value) then Some(InvalidUrlMessage)
    else if Contains(key.value, PlaceholderMarker) || key.value == "" then Some(InvalidKeyMessage)
    else None
  }

  /** A key left as the template's `your-...` text is refused even with a good URL. */
  lemma TemplateKeyRejected(url: string, parses: string -> bool)
    requires url != "" && parses(url)
    ensures ValidateConfig(Some(url), Some("your-anon-key"), parses) == Some(InvalidKeyMessage)
  {
    assert PlaceholderMarker <= "your-anon-key";
  }

  /** The marker anywhere in the key counts, not only at the start. */
  lemma EmbeddedMarkerRejected(url: string, parses: string -> bool, head: string, tail: string)
    requires url != "" && parses(url)
    ensures ValidateConfig(Some(url), Some(head + PlaceholderMarker + tail), parses) == Some(InvalidKeyMessage)
  {
    var key := head + PlaceholderMarker + tail;
    assert key[|head|..|head| + |PlaceholderMarker|] == PlaceholderMarker;
    assert OccursAt(key, PlaceholderMarker, |head|);
    ContainsIff(key, PlaceholderMarker);
  }

  /** The calls made through the client. */
  datatype Call =
    | SignUp | SignInWithPassword | SignOut | ResetPasswordForEmail | GetSession | OnAuthStateChange
    | Select | Insert | Update | Delete

  /** What a call of the stand-in client answers: a rejected promise, the session answer
      with no session and an error, a subscription with no error, or, for a method the
      stand-in does not define, the `TypeError` thrown by calling `undefined`. */
  datatype MockAnswer = Rejected(message: string) | NoSession(error: string) | Subscribed | NotAFunction

  /** The client the module exports: the stand-in carrying the configuration error, or
      the real client built from the URL and the key. */
  datatype Client = Mock(configError: string) | Real(url: string, anonKey: string)

  /** The stand-in's answer to each call. */
  function MockCall(configError: string, call: Call): (a: MockAnswer)
    ensures call.OnAuthStateChange? <==> a.Subscribed?
    ensures call.GetSession? <==> a.NoSession?
    ensures call.ResetPasswordForEmail? <==> a.NotAFunction?
    ensures a.Rejected? ==> a.message == configError
    ensures a.NoSession? ==> a.error == configError
  {
    match call
    case GetSession => NoSession(configError)
    case OnAuthStateChange => Subscribed
    case ResetPasswordForEmail => NotAFunction
    case _ => Rejected(configError)
  }

  /** Every call of the stand-in except the subscription fails: the ones it defines with
      the configuration error, so `signUp`, `signInWithPassword` and `signOut` reach no
      server, and `resetPasswordForEmail`, which it lacks, with a `TypeError`. */
  lemma MockFailsWithConfigError(configError: string, call: Call)
    requires !call.OnAuthStateChange?
    ensures !call.ResetPasswordForEmail? ==> MockCall(configError, call) in {Rejected(configError), NoSession(configError)}
    ensures call.ResetPasswordForEmail? ==> MockCall(configError, call) == NotAFunction
    ensures call in {SignUp, SignInWithPassword, SignOut} ==> MockCall(configError, call) == Rejected(configError)
  {
  }

  /** The client chosen at load: a stand-in when `configError` is set, the real client
      otherwise. */
  function ClientFor(src: Sources, parses: string -> bool): (c: Client)
    ensures c.Mock? <==> ValidateConfig(SupabaseUrl(src), SupabaseAnonKey(src), parses).Some?
    ensures c.Mock? ==> Some(c.configError) == ValidateConfig(SupabaseUrl(src), SupabaseAnonKey(src), parses)
    ensures c.Real? ==> Some(c.url) == SupabaseUrl(src) && Some(c.anonKey) == SupabaseAnonKey(src)
    ensures c.Real? ==> c.url != "" && parses(c.url) && c.anonKey != "" && !Contains(c.anonKey, PlaceholderMarker)
  {
    var err := ValidateConfig(SupabaseUrl(src), SupabaseAnonKey(src), parses);
    if err.Some? then Mock(err.value) else Real(SupabaseUrl(src).value, SupabaseAnonKey(src).value)
  }

  /** The module's top-level state: the settings it was loaded with, `configError`,
      computed once from them, and the `supabase` binding assigned according to it. */
  class SupabaseModule {
    const sources: Sources
    const parses: string -> bool
    const configError: Option<string> := ValidateConfig(SupabaseUrl(sources), SupabaseAnonKey(sources), parses)
    var supabase: Client

    /** Loading the module: validate, then assign the client. */
    constructor (src: Sources, urlParses: string -> bool)
      ensures sources == src && parses == urlParses
      ensures configError == ValidateConfig(SupabaseUrl(src), SupabaseAnonKey(src), urlParses)
      ensures supabase == ClientFor(src, urlParses)
    {
      var url := SupabaseUrl(src);
      var key := SupabaseAnonKey(src);
      sources, parses := src, urlParses;
      new;
      if configError.Some? {
        supabase := Mock(configError.value);
      } else {
        supabase := Real(url.value, key.value);
      }
    }

    /** `getSupabaseConfigError`: the value computed at load. It reads no mutable state,
        so every call answers the same. */
    function GetSupabaseConfigError(): (err: Option<string>)
      ensures err == ValidateConfig(SupabaseUrl(sources), SupabaseAnonKey(sources), parses)
      ensures err.Some? ==> err.value in {MissingMessage, InvalidUrlMessage, InvalidKeyMessage}
    {
      configError
    }
  }
}
