/**
 * The routes of the router's test suite, each reduced to the general route
 * shapes: what each pattern compiles to, which parameters it declares, which
 * URIs it matches and what it binds.
 */
module SuiteRoutes {
  import opened Wrappers
  import opened Pattern
  import opened Matcher
  import opened MatcherProofs
  import opened Params
  import opened RouteShapes

  /** The suite's patterns hold no regex metacharacter, so they may be registered. */
  lemma CommentPatternPlain()
    ensures PlainPattern("/posts/{postId}/comments/{commentId}")
  {
  }

  lemma PostPatternPlain()
    ensures PlainPattern("/posts/{postId}")
  {
  }

  /** The root route compiles to `#^/$#`, has no parameters and matches `/` alone. */
  lemma RootRoute(u: string)
    ensures CompilePattern("/") == "#^/$#"
    ensures ExtractParamNames("/") == []
    ensures Accepts(Tokenize("/"), u) <==> u == "/"
  {
    StaticNames("/");
    StaticCompilesToItself("/");
    StaticMatchesOnlyItself("/", u);
  }

  /** `/home` compiles to `#^/home$#` and has no parameters. */
  lemma HomeRoute()
    ensures ExtractParamNames("/home") == []
    ensures CompilePattern("/home") == "#^/home$#"
  {
    StaticNames("/home");
    StaticCompilesToItself("/home");
    HomeRegexText();
  }

  /** The regex text of `/home`, spelled out once as a literal concatenation. */
  lemma HomeRegexText()
    ensures "#^" + "/home" + "$#" == "#^/home$#"
  {
  }

  /** `/home` matches `/home` alone. */
  lemma HomeRouteMatches(u: string)
    ensures Accepts(Tokenize("/home"), u) <==> u == "/home"
  {
    StaticNames("/home");
    StaticMatchesOnlyItself("/home", u);
  }

  /** `/about` matches neither `/not-found` nor `/about/`. */
  lemma AboutRoute()
    ensures !Accepts(Tokenize("/about"), "/not-found")
    ensures !Accepts(Tokenize("/about"), "/about/")
  {
    StaticNames("/about");
    StaticMatchesOnlyItself("/about", "/not-found");
    StaticMatchesOnlyItself("/about", "/about/");
  }

  /** `/posts/{postId}` compiles to `#^/posts/([^/]+)$#`. */
  lemma PostRegex()
    ensures CompilePattern("/posts/{postId}") == "#^/posts/([^/]+)$#"
  {
    PostPatternText();
    OneParameterRegex("/posts/", "postId");
    PostRegexText();
  }

  /**
   * The post route's pattern as literal text followed by one placeholder,
   * the shape `RouteShapes.OneParameterRegex` and `OneParameterMatch` take;
   * shared by the post route's lemmas so the literal is split once.
   */
  lemma PostPatternText()
    ensures "/posts/{postId}" == "/posts/" + Placeholder("postId")
  {
  }

  /** The general one-group regex, read back as the literal text the test asserts. */
  lemma PostRegexText()
    ensures "#^" + ("/posts/" + SegmentGroup) + "$#" == "#^/posts/([^/]+)$#"
  {
  }

  /** `/posts/42` matches `/posts/{postId}` and binds postId to 42. */
  lemma PostMatch()
    ensures MatchFrom(Tokenize("/posts/{postId}"), "/posts/42") == Some(["42"])
    ensures Combine(ExtractParamNames("/posts/{postId}"), ["42"]) == [("postId", "42")]
  {
    PostPatternText();
    assert "/posts/42" == "/posts/" + "42";
    OneParameterMatch("/posts/", "postId", "42");
  }

  /** `/posts/{id}` matches neither `/posts/` nor `/posts//`. */
  lemma PostRejectsEmpty()
    ensures !Accepts(Tokenize("/posts/{id}"), "/posts/")
    ensures !Accepts(Tokenize("/posts/{id}"), "/posts//")
  {
    ParameterRouteRejectsTrailingSlash("/posts/{id}", "/posts/");
    ParameterRouteRejectsTrailingSlash("/posts/{id}", "/posts//");
  }

  /**
   * The comment route's pattern in the two-placeholder shape of
   * `RouteShapes`; shared by every comment-route lemma below so the
   * literal is split once.
   */
  lemma CommentPatternText()
    ensures "/posts/{postId}/comments/{commentId}" == "/posts/" + (Placeholder("postId") + ("/comments/" + Placeholder("commentId")))
  {
  }

  /** `/posts/{postId}/comments/{commentId}` compiles to `#^/posts/([^/]+)/comments/([^/]+)$#`. */
  lemma CommentRegex()
    ensures CompilePattern("/posts/{postId}/comments/{commentId}") == "#^/posts/([^/]+)/comments/([^/]+)$#"
  {
    CommentPatternText();
    TwoParameterRegex("/posts/", "postId", "/comments/", "commentId");
    CommentRegexText();
  }

  /** The general two-group regex, read back as the literal text the test asserts. */
  lemma CommentRegexText()
    ensures "#^" + ("/posts/" + (SegmentGroup + ("/comments/" + SegmentGroup))) + "$#" == "#^/posts/([^/]+)/comments/([^/]+)$#"
  {
  }

  /** `/posts/42/comments/56` matches and binds postId to 42 and commentId to 56. */
  lemma CommentMatch()
    ensures MatchFrom(Tokenize("/posts/{postId}/comments/{commentId}"), "/posts/42/comments/56") == Some(["42", "56"])
  {
    CommentPatternText();
    CommentUriText();
    TwoParameterMatch("/posts/", "postId", "/comments/", "commentId", "42", "56");
  }

  /** The comment URI split at its two captured values, matching the pattern's shape. */
  lemma CommentUriText()
    ensures "/posts/42/comments/56" == "/posts/" + ("42" + ("/comments/" + "56"))
  {
  }

  /**
   * The comment route's parameters are postId then commentId, so the
   * captures 42 and 56 bind postId => 42 then commentId => 56.
   */
  lemma CommentBinding()
    ensures ExtractParamNames("/posts/{postId}/comments/{commentId}") == ["postId", "commentId"]
    ensures Combine(ExtractParamNames("/posts/{postId}/comments/{commentId}"), ["42", "56"]) == [("postId", "42"), ("commentId", "56")]
  {
    CommentPatternText();
    TwoParameterNames("/posts/", "postId", "/comments/", "commentId");
    CombinePair("postId", "commentId", "42", "56");
  }

  /** `/posts/{postId}/comments/{commentId}` rejects an empty postId. */
  lemma CommentRejectsEmptyPost()
    ensures !Accepts(Tokenize("/posts/{postId}/comments/{commentId}"), "/posts//comments/56")
  {
    CommentPatternText();
    assert "/posts//comments/56" == "/posts/" + ("/comments/" + "56");
    TwoParameterRejectsEmptyFirst("/posts/", "postId", "/comments/", "commentId", "56");
  }

  /** `/posts/{postId}/comments/{commentId}` rejects an empty commentId, with or without a further slash. */
  lemma CommentRejectsEmptyComment()
    ensures !Accepts(Tokenize("/posts/{postId}/comments/{commentId}"), "/posts/42/comments/")
    ensures !Accepts(Tokenize("/posts/{postId}/comments/{commentId}"), "/posts/42/comments//")
  {
    ParameterRouteRejectsTrailingSlash("/posts/{postId}/comments/{commentId}", "/posts/42/comments/");
    ParameterRouteRejectsTrailingSlash("/posts/{postId}/comments/{commentId}", "/posts/42/comments//");
  }
}

/** The handlers of the router's test suite. */
module SuiteHandlers {
  import opened Wrappers
  import opened Handler

  /** `home#index` splits into controller token `home` and action `index`. */
  lemma HomeIndexSplit()
    ensures SplitHandler("home#index") == Some(("home", "index"))
  {
    SplitHandlerUnique("home#index", "home", "index");
  }

  /** `posts#show` splits into `posts` and `show`. */
  lemma PostsShowSplit()
    ensures SplitHandler("posts#show") == Some(("posts", "show"))
  {
    SplitHandlerUnique("posts#show", "posts", "show");
  }

  /** `comments#show` splits into `comments` and `show`. */
  lemma CommentsShowSplit()
    ensures SplitHandler("comments#show") == Some(("comments", "show"))
  {
    SplitHandlerUnique("comments#show", "comments", "show");
  }

  /** `auth#form` splits into `auth` and `form`. */
  lemma AuthFormSplit()
    ensures SplitHandler("auth#form") == Some(("auth", "form"))
  {
    SplitHandlerUnique("auth#form", "auth", "form");
  }

  /** `auth#submit` splits into `auth` and `submit`. */
  lemma AuthSubmitSplit()
    ensures SplitHandler("auth#submit") == Some(("auth", "submit"))
  {
    SplitHandlerUnique("auth#submit", "auth", "submit");
  }

  /** `pages#first` splits into `pages` and `first`. */
  lemma PagesFirstSplit()
    ensures SplitHandler("pages#first") == Some(("pages", "first"))
  {
    SplitHandlerUnique("pages#first", "pages", "first");
  }

  /** `pages#second` splits into `pages` and `second`. */
  lemma PagesSecondSplit()
    ensures SplitHandler("pages#second") == Some(("pages", "second"))
  {
    SplitHandlerUnique("pages#second", "pages", "second");
  }

  /** The controller token `home` names `HomeController`. */
  lemma HomeControllerName()
    ensures ControllerName("home") == "HomeController"
  {
    assert Ucfirst("home") == "Home";
  }

  /** The controller token `posts` names `PostsController`. */
  lemma PostsControllerName()
    ensures ControllerName("posts") == "PostsController"
  {
    assert Ucfirst("posts") == "Posts";
  }

  /** The controller token `comments` names `CommentsController`. */
  lemma CommentsControllerName()
    ensures ControllerName("comments") == "CommentsController"
  {
    assert Ucfirst("comments") == "Comments";
  }

  /** `missingSeparator` has no `#` and is refused. */
  lemma MissingSeparatorRefused()
    ensures SplitHandler("missingSeparator") == None
  {
    assert '#' !in "missingSeparator";
  }
}
