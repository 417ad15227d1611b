/**
 * The key-manager page: its state, the bootstrap that runs on mount, the
 * key-generation action and the sample the copy button copies. Issued
 * requests are recorded in `sent`, in order, in place of the network.
 */
module Page {
  import opened Wrappers
  import opened Text
  import opened Config
  import opened Email
  import opened Gateway
  import opened Keys
  import opened Samples

  /** Shown when the user submits without naming the key. */
  const KeyNameMissing: string := "Please provide a key name."

  /** Shown when the bootstrap could not create the missing user. */
  const UserCreationFailed: string := "Failed to create user in LiteLLM"

  /** Some request in `sent` asks for a key. */
  predicate KeyRequested(sent: seq<Request>)
  {
    exists i | 0 <= i < |sent| :: sent[i].GenerateKey?
  }

  class LitellmPage {
    const settings: Settings

    var keyAlias: string
    var generatedKey: string
    var errorMessage: string
    var tabIndex: int
    var isGenerating: bool
    var isInitializing: bool
    var userId: string
    var sent: seq<Request>

    /**
     * The page only exists with accepted settings; it shows one of the four
     * tabs; no key is being generated while the bootstrap runs; every key
     * request names its key; a key is only shown once one was requested.
     */
    ghost predicate Valid()
      reads this
    {
      && SettingsValid(settings)
      && 0 <= tabIndex < 4
      && (isGenerating ==> !isInitializing && KeyRequested(sent))
      && (forall i | 0 <= i < |sent| :: sent[i].GenerateKey? ==> sent[i].keyAlias != "")
      && (generatedKey != "" ==> KeyRequested(sent))
    }

    /** The state the page starts in, once the configuration gate has let it through. */
    constructor (s: Settings)
      requires SettingsValid(s)
      ensures Valid() && settings == s
      ensures keyAlias == "" && generatedKey == "" && errorMessage == "" && tabIndex == 0
      ensures !isGenerating && isInitializing && userId == "" && sent == []
    {
      settings := s;
      keyAlias, generatedKey, errorMessage := "", "", "";
      tabIndex := 0;
      isGenerating, isInitializing := false, true;
      userId := "";
      sent := [];
    }

    /** The key-name field's change handler. */
    method EditKeyAlias(alias: string)
      requires Valid()
      modifies this
      ensures Valid() && keyAlias == alias
      ensures generatedKey == old(generatedKey) && errorMessage == old(errorMessage) && tabIndex == old(tabIndex)
      ensures isGenerating == old(isGenerating) && isInitializing == old(isInitializing)
      ensures userId == old(userId) && sent == old(sent)
    {
      keyAlias := alias;
    }

    /** The tab bar's change handler; it offers tabs 0 to 3. */
    method SelectTab(index: int)
      requires Valid() && 0 <= index < 4
      modifies this
      ensures Valid() && tabIndex == index
      ensures keyAlias == old(keyAlias) && generatedKey == old(generatedKey) && errorMessage == old(errorMessage)
      ensures isGenerating == old(isGenerating) && isInitializing == old(isInitializing)
      ensures userId == old(userId) && sent == old(sent)
    {
      tabIndex := index;
    }

    /**
     * The bootstrap run on mount: resolve the user's email, look the user up,
     * and create the user only when the lookup did not find it. A failed
     * creation is reported; the user id is the resolved email whatever the
     * gateway says; initialisation is over on every path.
     */
    method InitializeUser(profile: ProfileLookup, lookup: Response<Option<nat>>, creation: Response<()>)
      requires Valid()
      modifies this
      ensures Valid()
      ensures !isInitializing
      ensures userId == FetchUserEmail(profile)
      ensures CheckUserExists(lookup) ==>
                sent == old(sent) + [UserLookupRequest(userId)] && errorMessage == old(errorMessage)
      ensures !CheckUserExists(lookup) ==>
                && sent == old(sent) + [UserLookupRequest(userId), NewUserRequest(settings, userId)]
                && errorMessage == (if CreateUser(creation) then old(errorMessage) else UserCreationFailed)
      ensures keyAlias == old(keyAlias) && generatedKey == old(generatedKey) && tabIndex == old(tabIndex)
      ensures isGenerating == old(isGenerating)
    {
      isInitializing := true;
      var userEmail := FetchUserEmail(profile);
      userId := userEmail;
      sent := sent + [UserLookupRequest(userEmail)];
      var found := CheckUserExists(lookup);
      if !found {
        sent := sent + [NewUserRequest(settings, userEmail)];
        var created := CreateUser(creation);
        if !created {
          errorMessage := UserCreationFailed;
        }
      }
      isInitializing := false;
      KeyRequestedGrows(old(sent), sent);
    }

    /**
     * The submit handler up to the point where it waits for the gateway: the
     * message is cleared; an empty alias is refused with no request; otherwise
     * the page enters the generating state and sends the key request.
     * The handler is only reachable from the form, which exists once the bootstrap is over.
     */
    method BeginSubmit() returns (request: Option<Request>)
      requires Valid() && !isInitializing
      modifies this
      ensures Valid()
      ensures old(keyAlias) == "" ==>
                && request == None && errorMessage == KeyNameMissing
                && isGenerating == old(isGenerating) && sent == old(sent)
      ensures old(keyAlias) != "" ==>
                && request == Some(KeyRequest(settings, keyAlias, userId)) && errorMessage == ""
                && isGenerating && sent == old(sent) + [request.value]
      ensures keyAlias == old(keyAlias) && generatedKey == old(generatedKey) && tabIndex == old(tabIndex)
      ensures isInitializing == old(isInitializing) && userId == old(userId)
    {
      errorMessage := "";
      if keyAlias == "" {
        errorMessage := KeyNameMissing;
        return None;
      }
      isGenerating := true;
      var body := KeyRequest(settings, keyAlias, userId);
      sent := sent + [body];
      request := Some(body);
      assert sent[|sent| - 1].GenerateKey?;
      KeyRequestedGrows(old(sent), sent);
    }

    /**
     * The submit handler after the gateway's reply: the reply becomes the new
     * key or the message to show, and the page leaves the generating state.
     */
    method FinishSubmit(response: Response<Option<string>>)
      requires Valid() && isGenerating
      modifies this
      ensures Valid() && !isGenerating
      ensures KeyGenerationOutcome(response).Issued? ==>
                generatedKey == KeyGenerationOutcome(response).key && errorMessage == old(errorMessage)
      ensures KeyGenerationOutcome(response).Refused? ==>
                generatedKey == old(generatedKey) && errorMessage == KeyGenerationOutcome(response).message
      ensures keyAlias == old(keyAlias) && tabIndex == old(tabIndex) && isInitializing == old(isInitializing)
      ensures userId == old(userId) && sent == old(sent)
    {
      match KeyGenerationOutcome(response) {
        case Issued(key) =>
          generatedKey := key;
        case Refused(message) =>
          errorMessage := message;
      }
      isGenerating := false;
    }

    /**
     * The whole submit handler, with the gateway's reply to the key request:
     * an empty alias is refused without a request and without touching the
     * key; otherwise exactly one request is sent, the reply decides between a
     * new key and a message, and the page is no longer generating.
     */
    method HandleSubmitKeyOptions(response: Response<Option<string>>)
      requires Valid() && !isInitializing && !isGenerating
      modifies this
      ensures Valid() && !isGenerating
      ensures old(keyAlias) == "" ==>
                errorMessage == KeyNameMissing && generatedKey == old(generatedKey) && sent == old(sent)
      ensures old(keyAlias) != "" ==>
                && sent == old(sent) + [KeyRequest(settings, old(keyAlias), old(userId))]
                && (KeyGenerationOutcome(response).Issued? ==>
                      generatedKey == KeyGenerationOutcome(response).key && errorMessage == "")
                && (KeyGenerationOutcome(response).Refused? ==>
                      generatedKey == old(generatedKey) && errorMessage == KeyGenerationOutcome(response).message)
      ensures keyAlias == old(keyAlias) && tabIndex == old(tabIndex) && isInitializing == old(isInitializing)
      ensures userId == old(userId)
    {
      var request := BeginSubmit();
      if request.Some? {
        FinishSubmit(response);
      }
    }

    /**
     * A click on the generate button. The button is disabled while a key is
     * being generated and absent while the bootstrap runs, so such a click
     * changes nothing and sends nothing; otherwise it runs the submit handler.
     */
    method ClickGenerate() returns (request: Option<Request>)
      requires Valid()
      modifies this
      ensures Valid()
      ensures old(isGenerating || isInitializing) ==> request == None && unchanged(this)
      ensures !old(isGenerating || isInitializing) ==>
                && (request.Some? <==> old(keyAlias) != "")
                && isGenerating == request.Some?
                && sent == old(sent) + (if request.Some? then [request.value] else [])
                && errorMessage == (if request.Some? then "" else KeyNameMissing)
      ensures keyAlias == old(keyAlias) && generatedKey == old(generatedKey) && tabIndex == old(tabIndex)
      ensures isInitializing == old(isInitializing) && userId == old(userId)
    {
      if isGenerating || isInitializing {
        return None;
      }
      request := BeginSubmit();
    }

    /** The text the copy button copies: the sample of the current tab, with the key or the placeholder and the base URL. */
    function CopiedSample(): (s: string)
      reads this
      ensures Contains(s, KeyOrPlaceholder(generatedKey)) && Contains(s, settings.baseUrl)
    {
      GetCodeSampleForTab(MakeCodeSamples(generatedKey, settings.baseUrl), tabIndex)
    }
  }

  /** Appending to the log keeps every request already in it. */
  lemma KeyRequestedGrows(before: seq<Request>, after: seq<Request>)
    requires before <= after
    ensures KeyRequested(before) ==> KeyRequested(after)
  {
  }

  /**
   * Two clicks on the generate button before the gateway replies send at most
   * one key request: the first click disables the button.
   */
  method DoubleClickSendsOnce(page: LitellmPage) returns (first: Option<Request>, second: Option<Request>)
    requires page.Valid()
    modifies page
    ensures page.Valid()
    ensures second == None
    ensures |page.sent| <= |old(page.sent)| + 1
  {
    first := page.ClickGenerate();
    second := page.ClickGenerate();
  }

  /**
   * Mounting the page: the configuration gate either throws, and there is no
   * page, or yields a page in its initial state with the accepted settings.
   */
  method Mount(config: Option<RawConfig>) returns (r: Result<LitellmPage, string>)
    ensures r.Failure? <==> CheckConfig(config).Failure?
    ensures r.Failure? ==> r.error == ConfigNotSet
    ensures r.Success? ==>
              && fresh(r.value) && r.value.Valid() && r.value.settings == CheckConfig(config).value
              && r.value.isInitializing && !r.value.isGenerating && r.value.sent == []
              && r.value.keyAlias == "" && r.value.generatedKey == "" && r.value.errorMessage == ""
              && r.value.tabIndex == 0 && r.value.userId == ""
  {
    match CheckConfig(config)
    case Failure(e) =>
      r := Failure(e);
    case Success(s) =>
      var page := new LitellmPage(s);
      r := Success(page);
  }
}
