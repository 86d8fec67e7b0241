/** The application's top-level state (`App`, with the `AuthProvider` user):
    the current page, the signed-in user, the theme, which overlays are open,
    and the assistant panel, whose log the seeding effect renews whenever one
    of its dependencies changes while it is open. */
module Session {
  import opened Wrappers
  import opened Text
  import opened Auth
  import opened Navigation
  import opened KnowledgeBase
  import opened Assistant

  datatype Theme = Light | Dark

  /** `toggleTheme`. */
  function Toggled(t: Theme): (r: Theme)
    ensures r != t
  {
    if t == Light then Dark else Light
  }

  lemma ToggleTwice(t: Theme)
    ensures Toggled(Toggled(t)) == t
  {
  }

  function UserName(user: Option<User>): Option<string> {
    if user.Some? then Some(user.value.name) else None
  }

  /** A log that starts with the two seed messages of some user name and one
      of the knowledge base's topics, so no learner message comes before the
      seed. */
  ghost predicate Seeded(log: seq<Message>) {
    |log| >= 2
    && exists n: Option<string>, c: TopicConfig {:trigger SeedLog(n, c)} ::
         (c == HtmlConfig || c == DefaultConfig) && log[..2] == SeedLog(n, c)
  }

  /** The assistant log after the seeding effect had its chance to run: it
      starts over with a fresh seed exactly when a dependency changed and the
      panel is open, and is left as it was otherwise. */
  function AfterSeeding(log: seq<Message>, depsChanged: bool, isOpen: bool, user: Option<User>, page: Page): (r: seq<Message>)
    ensures depsChanged && isOpen ==> r == SeedLog(UserName(user), ResolveConfig(TopicId(page))) && Seeded(r)
    ensures !(depsChanged && isOpen) ==> r == log
  {
    if depsChanged && isOpen then
      var seeded := SeedLog(UserName(user), ResolveConfig(TopicId(page)));
      assert seeded[..2] == seeded;
      seeded
    else
      log
  }

  class App {
    var page: Page
    var user: Option<User>
    var theme: Theme
    var assistantOpen: bool
    var authModalOpen: bool
    /** `loadingProvider` while `isLoading` holds: the provider whose social
        sign-in is under way; the dialog then shows only its waiting screen. */
    var socialPending: Option<string>
    const modal: AssistantModal

    /** An open panel has been seeded, a reply can only be pending on a seeded
        log, no learner message ever comes before the seed, and a social
        sign-in is only under way in the open sign-in dialog. */
    ghost predicate Valid()
      reads this, modal
    {
      && modal.Valid()
      && (socialPending.Some? ==> authModalOpen)
      && (assistantOpen ==> modal.messages != [])
      && (modal.timers != [] ==> modal.messages != [])
      && (modal.messages != [] ==> Seeded(modal.messages))
    }

    constructor ()
      ensures Valid() && fresh(modal)
      ensures page == Home && user == None && theme == Light
      ensures !assistantOpen && !authModalOpen && socialPending == None
      ensures modal.messages == [] && modal.input == "" && !modal.isTyping && modal.timers == []
    {
      page, user, theme := Home, None, Light;
      assistantOpen, authModalOpen, socialPending := false, false, None;
      modal := new AssistantModal();
    }

    /** `setPage`: the page is replaced wholesale; a change of topic reseeds
        an open assistant. */
    method SetPage(p: Page)
      requires Valid()
      modifies this, modal
      ensures Valid()
      ensures page == p && user == old(user) && theme == old(theme)
      ensures assistantOpen == old(assistantOpen) && authModalOpen == old(authModalOpen)
      ensures socialPending == old(socialPending)
      ensures modal.messages
           == AfterSeeding(old(modal.messages), TopicId(p) != TopicId(old(page)), assistantOpen, user, p)
      ensures modal.input == old(modal.input) && modal.isTyping == old(modal.isTyping)
      ensures modal.timers == old(modal.timers)
    {
      var changed := TopicId(p) != TopicId(page);
      page := p;
      if changed {
        modal.Seed(assistantOpen, UserName(user), page);
      }
    }

    /** `handleLogout`: nobody is signed in and Home is showing. */
    method Logout()
      requires Valid()
      modifies this, modal
      ensures Valid()
      ensures user == None && page == Home
      ensures theme == old(theme) && assistantOpen == old(assistantOpen) && authModalOpen == old(authModalOpen)
      ensures socialPending == old(socialPending)
      ensures modal.messages
           == AfterSeeding(old(modal.messages), old(user).Some? || TopicId(old(page)) != "default", assistantOpen, None, Home)
      ensures modal.input == old(modal.input) && modal.isTyping == old(modal.isTyping)
      ensures modal.timers == old(modal.timers)
    {
      var changed := user.Some? || TopicId(page) != TopicId(Home);
      user := None;
      page := Home;
      if changed {
        modal.Seed(assistantOpen, UserName(user), page);
      }
    }

    /** The navigation bar's Sign In button, shown only while nobody is
        signed in. */
    method OpenSignIn()
      requires Valid() && user.None?
      modifies this
      ensures Valid()
      ensures authModalOpen
      ensures page == old(page) && user == old(user) && theme == old(theme) && assistantOpen == old(assistantOpen)
      ensures socialPending == old(socialPending)
    {
      authModalOpen := true;
    }

    /** A click on the sign-in dialog's backdrop. The backdrop exists only on
        the form screen, not while a social sign-in is under way. */
    method CloseSignIn()
      requires Valid() && authModalOpen && socialPending.None?
      modifies this
      ensures Valid()
      ensures !authModalOpen
      ensures page == old(page) && user == old(user) && theme == old(theme) && assistantOpen == old(assistantOpen)
      ensures socialPending == None
    {
      authModalOpen := false;
    }

    /** `login` of the authentication context: the user is replaced by a new
        user object, which an open assistant notices and reseeds for. */
    method Login(u: User)
      requires Valid()
      modifies this, modal
      ensures Valid()
      ensures user == Some(u)
      ensures modal.messages == AfterSeeding(old(modal.messages), true, assistantOpen, user, page)
      ensures page == old(page) && theme == old(theme)
      ensures assistantOpen == old(assistantOpen) && authModalOpen == old(authModalOpen)
      ensures socialPending == old(socialPending)
      ensures modal.input == old(modal.input) && modal.isTyping == old(modal.isTyping)
      ensures modal.timers == old(modal.timers)
    {
      user := Some(u);
      modal.Seed(assistantOpen, UserName(user), page);
    }

    /** `handleStandardSubmit`, from the form screen: `StandardSignIn` decides;
        a blank name changes nothing, otherwise the trimmed name signs in and
        the dialog closes. */
    method SubmitSignIn(name: string)
      requires Valid() && authModalOpen && socialPending.None?
      modifies this, modal
      ensures Valid()
      ensures user == if StandardSignIn(name).Some? then StandardSignIn(name) else old(user)
      ensures authModalOpen == StandardSignIn(name).None? && socialPending == None
      ensures modal.messages
           == AfterSeeding(old(modal.messages), StandardSignIn(name).Some?, assistantOpen, user, page)
      ensures page == old(page) && theme == old(theme) && assistantOpen == old(assistantOpen)
      ensures modal.input == old(modal.input) && modal.isTyping == old(modal.isTyping)
      ensures modal.timers == old(modal.timers)
    {
      var signedIn := StandardSignIn(name);
      CompleteSignIn(signedIn);
    }

    /** What the dialog does with the outcome of a sign-in attempt: an
        accepted user signs in and the dialog closes. */
    method CompleteSignIn(signedIn: Option<User>)
      requires Valid() && socialPending.None?
      modifies this, modal
      ensures Valid()
      ensures user == if signedIn.Some? then signedIn else old(user)
      ensures authModalOpen == (signedIn.None? && old(authModalOpen)) && socialPending == None
      ensures modal.messages == AfterSeeding(old(modal.messages), signedIn.Some?, assistantOpen, user, page)
      ensures page == old(page) && theme == old(theme) && assistantOpen == old(assistantOpen)
      ensures modal.input == old(modal.input) && modal.isTyping == old(modal.isTyping)
      ensures modal.timers == old(modal.timers)
    {
      if signedIn.Some? {
        Login(signedIn.value);
        authModalOpen := false;
      }
    }

    /** `handleSocialLogin`, from the form screen: the dialog switches to its
        waiting screen for `provider` and the sign-in timer starts. */
    method StartSocialSignIn(provider: string)
      requires Valid() && authModalOpen && socialPending.None?
      modifies this
      ensures Valid()
      ensures socialPending == Some(provider) && authModalOpen
      ensures page == old(page) && user == old(user) && theme == old(theme) && assistantOpen == old(assistantOpen)
    {
      socialPending := Some(provider);
    }

    /** The body of the social sign-in timer: the provider's placeholder user
        signs in, the waiting screen ends and the dialog closes. */
    method CompleteSocialSignIn()
      requires Valid() && socialPending.Some?
      modifies this, modal
      ensures Valid()
      ensures user == Some(SocialUser(old(socialPending).value))
      ensures !authModalOpen && socialPending == None
      ensures modal.messages == AfterSeeding(old(modal.messages), true, assistantOpen, user, page)
      ensures page == old(page) && theme == old(theme) && assistantOpen == old(assistantOpen)
      ensures modal.input == old(modal.input) && modal.isTyping == old(modal.isTyping)
      ensures modal.timers == old(modal.timers)
    {
      Login(SocialUser(socialPending.value));
      socialPending := None;
      authModalOpen := false;
    }

    method ToggleTheme()
      requires Valid()
      modifies this
      ensures Valid()
      ensures theme == Toggled(old(theme))
      ensures page == old(page) && user == old(user)
      ensures assistantOpen == old(assistantOpen) && authModalOpen == old(authModalOpen)
      ensures socialPending == old(socialPending)
    {
      theme := Toggled(theme);
    }

    /** The assistant widget: opening the panel always reseeds it; closing it
        leaves the log, and any pending reply, as it is. */
    method ToggleAssistant()
      requires Valid()
      modifies this, modal
      ensures Valid()
      ensures assistantOpen == !old(assistantOpen)
      ensures modal.messages == AfterSeeding(old(modal.messages), true, assistantOpen, user, page)
      ensures page == old(page) && user == old(user) && theme == old(theme) && authModalOpen == old(authModalOpen)
      ensures socialPending == old(socialPending)
      ensures modal.input == old(modal.input) && modal.isTyping == old(modal.isTyping)
      ensures modal.timers == old(modal.timers)
    {
      assistantOpen := !assistantOpen;
      modal.Seed(assistantOpen, UserName(user), page);
    }

    /** The panel's close button. */
    method CloseAssistant()
      requires Valid()
      modifies this
      ensures Valid()
      ensures !assistantOpen
      ensures page == old(page) && user == old(user) && theme == old(theme) && authModalOpen == old(authModalOpen)
      ensures socialPending == old(socialPending)
    {
      assistantOpen := false;
    }

    method TypeQuestion(text: string)
      requires Valid() && assistantOpen
      modifies modal
      ensures Valid()
      ensures modal.input == text
      ensures modal.messages == old(modal.messages) && modal.isTyping == old(modal.isTyping)
      ensures modal.timers == old(modal.timers)
    {
      modal.SetInput(text);
    }

    /** Enter in the panel's input box. */
    method SendQuestion()
      requires Valid() && assistantOpen
      modifies modal
      ensures Valid()
      ensures AllWhitespace(old(modal.input)) ==>
        modal.messages == old(modal.messages) && modal.input == old(modal.input)
        && modal.isTyping == old(modal.isTyping) && modal.timers == old(modal.timers)
      ensures !AllWhitespace(old(modal.input)) ==>
        && modal.messages == old(modal.messages) + [Message(Learner, old(modal.input))]
        && modal.input == "" && modal.isTyping
        && modal.timers == old(modal.timers) + [PendingReply(old(modal.input), ResolveConfig(TopicId(page)))]
    {
      modal.Send(ResolveConfig(TopicId(page)));
    }

    /** The oldest reply timer fires. Nothing cancels it: it fires whether or
        not the panel is still open or the topic has changed since. */
    method ReplyArrives()
      requires Valid() && modal.timers != []
      modifies modal
      ensures Valid()
      ensures modal.messages
           == old(modal.messages) + [Message(Ai, Reply(old(modal.timers[0]).config.rules, Lower(old(modal.timers[0]).input)))]
      ensures !modal.isTyping && modal.timers == old(modal.timers[1..]) && modal.input == old(modal.input)
    {
      modal.Deliver();
    }
  }

  /** A question about `div` asked in the HTML tutorial, followed by a switch
      to the Python tutorial before the reply arrives: the log is reseeded
      for the new topic, and then the HTML answer is appended to it anyway. */
  method StaleReplyAfterTopicSwitch(question: string) returns (app: App)
    requires !AllWhitespace(question) && Contains(Lower(question), "div")
    ensures fresh(app) && app.Valid()
    ensures app.page == Tutorial("python")
    ensures app.modal.messages == SeedLog(None, DefaultConfig) + [Message(Ai, DivAnswer)]
  {
    app := new App();
    app.SetPage(Tutorial("html"));
    app.ToggleAssistant();
    app.TypeQuestion(question);
    app.SendQuestion();
    ConfigForPage(Tutorial("html"));
    assert app.modal.timers == [PendingReply(question, HtmlConfig)];
    app.SetPage(Tutorial("python"));
    ConfigForPage(Tutorial("python"));
    assert app.modal.messages == SeedLog(None, DefaultConfig);
    app.ReplyArrives();
    HtmlDivWins(Lower(question));
  }

  /** Two questions sent in quick succession: the first reply clears the
      typing indicator although the second is still on its way. */
  method IndicatorClearsEarly(first: string, second: string) returns (app: App)
    requires !AllWhitespace(first) && !AllWhitespace(second)
    ensures fresh(app) && app.Valid()
    ensures !app.modal.isTyping && |app.modal.timers| == 1
    ensures |app.modal.messages| == 5 && app.modal.messages[3] == Message(Learner, second)
  {
    app := new App();
    app.ToggleAssistant();
    assert |app.modal.messages| == 2;
    app.TypeQuestion(first);
    app.SendQuestion();
    assert |app.modal.messages| == 3 && |app.modal.timers| == 1;
    app.TypeQuestion(second);
    app.SendQuestion();
    assert app.modal.messages[3] == Message(Learner, second) && |app.modal.timers| == 2;
    app.ReplyArrives();
  }
}
