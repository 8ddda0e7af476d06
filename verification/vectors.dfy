/** The classifier's test vectors: the User-Agents, paths and queries of
    the repository's tests, with what `IsPrerender` decides for each. Long
    User-Agents are written as pieces of at most forty characters, cut at a
    character that begins no keyword, so that a keyword missing from every
    piece is missing from the whole. */
module ClassifierVectors {
  import opened Wrappers
  import opened Text
  import opened Http
  import opened Classifier

  /** The host the test server listens on. */
  const TestHost: string := "127.0.0.1:3000"

  /** The path the User-Agent vectors request. */
  const SubPath: string := "/path/subpath"

  /** A GET of `path?query` carrying the User-Agent `ua`. */
  function AgentQueryRequest(path: string, query: string, ua: string): Request {
    Request("GET", Url("http", "", None, TestHost, path, false, query, ""), map["User-Agent" := [ua]])
  }

  /** A GET of `path` carrying the User-Agent `ua`. */
  function AgentRequest(path: string, ua: string): Request {
    AgentQueryRequest(path, "", ua)
  }

  /** A `verb` of `/path?query` carrying no header at all. */
  function PlainRequest(verb: string, query: string): Request {
    Request(verb, Url("http", "", None, TestHost, "/path", false, query, ""), map[])
  }

  // ---------------------------------------------------------------------
  // User-Agents of the allow list

  /** Twitter's crawler. */
  const Twitterbot: string := "Twitterbot/1.0"

  /** No keyword of the deny list occurs in `Twitterbot`. */
  lemma TwitterbotLetters()
    ensures LacksIgnoringCase(Twitterbot, 'l') && LacksIgnoringCase(Twitterbot, 'n')
  {
  }

  lemma TwitterbotNotDenied()
    ensures !DenyRegex(Twitterbot)
  {
    TwitterbotLetters();
    AbsentIgnoringCase(Twitterbot, "google", 'l');
    NotFollowedByIgnoringCase(Twitterbot, "google", "bot");
    AbsentIgnoringCase(Twitterbot, "bing", 'n');
    AbsentIgnoringCase(Twitterbot, "msnbot", 'n');
    AbsentIgnoringCase(Twitterbot, "yandexbot", 'n');
    AbsentIgnoringCase(Twitterbot, "pinterest", 'n');
    NotFollowedByIgnoringCase(Twitterbot, "pinterest", "ios");
    AbsentIgnoringCase(Twitterbot, "mail.ru", 'l');
  }

  lemma TwitterbotPrerendered()
    ensures AllowRegex(Twitterbot)
    ensures IsPrerender(AgentRequest(SubPath, Twitterbot))
  {
    assert OccursIgnoringCase(Twitterbot, "bot", 7);
    TwitterbotNotDenied();
    DotlessPathNotStatic(SubPath);
  }

  /** Facebook's crawler. */
  const Facebook1: string := "facebookexternalhit"
  const Facebook2: string := "/1.1 (+http://www.facebook.com"
  const Facebook3: string := "/external"
  const Facebook4: string := "hit_uatext.php)"
  const Facebook: string := Facebook1 + Facebook2 + Facebook3 + Facebook4

  // The letters each piece of `Facebook` lacks, ignoring case.
  lemma FacebookLetters1()
    ensures LacksIgnoringCase(Facebook1, '.')
    ensures LacksIgnoringCase(Facebook1, 'd')
    ensures LacksIgnoringCase(Facebook1, 'g')
  {
  }

  lemma FacebookLetters2()
    ensures LacksIgnoringCase(Facebook1, 's')
    ensures LacksIgnoringCase(Facebook2, 'l')
  {
  }

  lemma FacebookLetters3()
    ensures LacksIgnoringCase(Facebook2, 'n')
    ensures LacksIgnoringCase(Facebook3, 'i')
    ensures LacksIgnoringCase(Facebook3, 'o')
  {
  }

  lemma FacebookLetters4()
    ensures LacksIgnoringCase(Facebook4, 'l')
    ensures LacksIgnoringCase(Facebook4, 'n')
  {
  }

  /** A keyword that lacks, in each piece of `Facebook`, the letter `xs`
      names for it, and holds no character a piece begins with, does
      not match `Facebook`: no match can straddle two pieces. */
  lemma FacebookLacks(w: string, xs: string)
    requires FoldedPattern(w) && |xs| == 4 && forall i :: 0 <= i < 4 ==> xs[i] in w
    requires xs[0] in {'.', 'd', 'g', 's'} && xs[1] in {'l', 'n'} && xs[2] in {'i', 'o'} && xs[3] in {'l', 'n'}
    requires '/' !in w && 'h' !in w
    ensures !ContainsIgnoringCase(Facebook, w)
  {
    FacebookLetters1();
    FacebookLetters2();
    FacebookLetters3();
    FacebookLetters4();
    assert Fold(Facebook2[0]) == '/' && Fold(Facebook3[0]) == '/' && Fold(Facebook4[0]) == 'h';
    AbsentIgnoringCase(Facebook1, w, xs[0]);
    AbsentAcrossSeam(Facebook1, Facebook2, w, xs[1]);
    AbsentAcrossSeam(Facebook1 + Facebook2, Facebook3, w, xs[2]);
    AbsentAcrossSeam(Facebook1 + Facebook2 + Facebook3, Facebook4, w, xs[3]);
  }

  lemma FacebookWithoutGoogle()
    ensures !ContainsIgnoringCase(Facebook, "google")
  {
    FacebookLacks("google", "glol");
  }

  lemma FacebookWithoutBing()
    ensures !ContainsIgnoringCase(Facebook, "bing")
  {
    FacebookLacks("bing", "gnin");
  }

  lemma FacebookWithoutMsnbot()
    ensures !ContainsIgnoringCase(Facebook, "msnbot")
  {
    FacebookLacks("msnbot", "snon");
  }

  lemma FacebookWithoutYandexbot()
    ensures !ContainsIgnoringCase(Facebook, "yandexbot")
  {
    FacebookLacks("yandexbot", "dnon");
  }

  lemma FacebookWithoutPinterest()
    ensures !ContainsIgnoringCase(Facebook, "pinterest")
  {
    FacebookLacks("pinterest", "snin");
  }

  lemma FacebookWithoutMailRu()
    ensures !ContainsIgnoringCase(Facebook, "mail.ru")
  {
    FacebookLacks("mail.ru", ".lil");
  }

  /** No keyword of the deny list occurs in `Facebook`. */
  lemma FacebookNotDenied()
    ensures !DenyRegex(Facebook)
  {
    FacebookWithoutGoogle();
    NotFollowedByIgnoringCase(Facebook, "google", "bot");
    FacebookWithoutBing();
    FacebookWithoutMsnbot();
    FacebookWithoutYandexbot();
    FacebookWithoutPinterest();
    NotFollowedByIgnoringCase(Facebook, "pinterest", "ios");
    FacebookWithoutMailRu();
  }

  lemma FacebookPrerendered()
    ensures AllowRegex(Facebook)
    ensures IsPrerender(AgentRequest(SubPath, Facebook))
  {
    assert OccursIgnoringCase(Facebook1, "facebookexternalhit", 0);
    FoundInPrefix(Facebook1, Facebook2, "facebookexternalhit");
    FoundInPrefix(Facebook1 + Facebook2, Facebook3, "facebookexternalhit");
    FoundInPrefix(Facebook1 + Facebook2 + Facebook3, Facebook4, "facebookexternalhit");
    FacebookNotDenied();
    DotlessPathNotStatic(SubPath);
  }

  /** Pinterest's crawler. */
  const PinterestBot1: string := "Pinterest/0.2 (+http://www.pinterest."
  const PinterestBot2: string := "com/)"
  const PinterestBot: string := PinterestBot1 + PinterestBot2

  // The letters each piece of `PinterestBot` lacks, ignoring case.
  lemma PinterestBotLetters1()
    ensures LacksIgnoringCase(PinterestBot1, 'a')
  {
  }

  lemma PinterestBotLetters2()
    ensures LacksIgnoringCase(PinterestBot1, 'b')
  {
  }

  lemma PinterestBotLetters3()
    ensures LacksIgnoringCase(PinterestBot1, 'o')
    ensures LacksIgnoringCase(PinterestBot2, 'b')
    ensures LacksIgnoringCase(PinterestBot2, 'i')
  {
  }

  /** A keyword that lacks, in each piece of `PinterestBot`, the letter `xs`
      names for it, and holds no character a piece begins with, does
      not match `PinterestBot`: no match can straddle two pieces. */
  lemma PinterestBotLacks(w: string, xs: string)
    requires FoldedPattern(w) && |xs| == 2 && forall i :: 0 <= i < 2 ==> xs[i] in w
    requires xs[0] in {'a', 'b', 'o'} && xs[1] in {'b', 'i'}
    requires 'c' !in w
    ensures !ContainsIgnoringCase(PinterestBot, w)
  {
    PinterestBotLetters1();
    PinterestBotLetters2();
    PinterestBotLetters3();
    assert Fold(PinterestBot2[0]) == 'c';
    AbsentIgnoringCase(PinterestBot1, w, xs[0]);
    AbsentAcrossSeam(PinterestBot1, PinterestBot2, w, xs[1]);
  }

  lemma PinterestBotWithoutBot()
    ensures !ContainsIgnoringCase(PinterestBot, "bot")
  {
    PinterestBotLacks("bot", "bb");
  }

  lemma PinterestBotWithoutBing()
    ensures !ContainsIgnoringCase(PinterestBot, "bing")
  {
    PinterestBotLacks("bing", "bb");
  }

  lemma PinterestBotWithoutMsnbot()
    ensures !ContainsIgnoringCase(PinterestBot, "msnbot")
  {
    PinterestBotLacks("msnbot", "bb");
  }

  lemma PinterestBotWithoutYandexbot()
    ensures !ContainsIgnoringCase(PinterestBot, "yandexbot")
  {
    PinterestBotLacks("yandexbot", "ab");
  }

  lemma PinterestBotWithoutIos()
    ensures !ContainsIgnoringCase(PinterestBot, "ios")
  {
    PinterestBotLacks("ios", "oi");
  }

  lemma PinterestBotWithoutMailRu()
    ensures !ContainsIgnoringCase(PinterestBot, "mail.ru")
  {
    PinterestBotLacks("mail.ru", "ai");
  }

  /** No keyword of the deny list occurs in `PinterestBot`. */
  lemma PinterestBotNotDenied()
    ensures !DenyRegex(PinterestBot)
  {
    PinterestBotWithoutBot();
    NotFollowedByIgnoringCase(PinterestBot, "google", "bot");
    PinterestBotWithoutBing();
    PinterestBotWithoutMsnbot();
    PinterestBotWithoutYandexbot();
    PinterestBotWithoutIos();
    NotFollowedByIgnoringCase(PinterestBot, "pinterest", "ios");
    PinterestBotWithoutMailRu();
  }

  lemma PinterestBotPrerendered()
    ensures AllowRegex(PinterestBot)
    ensures IsPrerender(AgentRequest(SubPath, PinterestBot))
  {
    assert OccursIgnoringCase(PinterestBot1, "pinterest", 0);
    FoundInPrefix(PinterestBot1, PinterestBot2, "pinterest");
    PinterestBotNotDenied();
    DotlessPathNotStatic(SubPath);
  }

  /** Flipboard's proxy. */
  const FlipboardProxy1: string := "Mozilla/5.0 (Macintosh; Intel"
  const FlipboardProxy2: string := " Mac OS X 10.9; rv:28.0) Gecko/20100101 "
  const FlipboardProxy3: string := "Firefox/28.0 (FlipboardProxy"
  const FlipboardProxy4: string := "/1.1; +http://"
  const FlipboardProxy5: string := "flipboard.com/browserproxy)"
  const FlipboardProxy: string := FlipboardProxy1 + FlipboardProxy2 + FlipboardProxy3 + FlipboardProxy4 + FlipboardProxy5

  // The letters each piece of `FlipboardProxy` lacks, ignoring case.
  lemma FlipboardProxyLetters1()
    ensures LacksIgnoringCase(FlipboardProxy1, 'b')
    ensures LacksIgnoringCase(FlipboardProxy1, 'r')
  {
  }

  lemma FlipboardProxyLetters2()
    ensures LacksIgnoringCase(FlipboardProxy2, 'b')
  {
  }

  lemma FlipboardProxyLetters3()
    ensures LacksIgnoringCase(FlipboardProxy2, 'i')
  {
  }

  lemma FlipboardProxyLetters4()
    ensures LacksIgnoringCase(FlipboardProxy3, 'g')
    ensures LacksIgnoringCase(FlipboardProxy3, 'm')
  {
  }

  lemma FlipboardProxyLetters5()
    ensures LacksIgnoringCase(FlipboardProxy3, 't')
    ensures LacksIgnoringCase(FlipboardProxy4, 'b')
    ensures LacksIgnoringCase(FlipboardProxy4, 'i')
  {
  }

  lemma FlipboardProxyLetters6()
    ensures LacksIgnoringCase(FlipboardProxy5, 'g')
    ensures LacksIgnoringCase(FlipboardProxy5, 't')
  {
  }

  lemma FlipboardProxyLetters7()
    ensures LacksIgnoringCase(FlipboardProxy5, 'u')
  {
  }

  /** A keyword that lacks, in each piece of `FlipboardProxy`, the letter `xs`
      names for it, and holds no character a piece begins with, does
      not match `FlipboardProxy`: no match can straddle two pieces. */
  lemma FlipboardProxyLacks(w: string, xs: string)
    requires FoldedPattern(w) && |xs| == 5 && forall i :: 0 <= i < 5 ==> xs[i] in w
    requires xs[0] in {'b', 'r'} && xs[1] in {'b', 'i'} && xs[2] in {'g', 'm', 't'} && xs[3] in {'b', 'i'} && xs[4] in {'g', 't', 'u'}
    requires ' ' !in w && '/' !in w && 'f' !in w
    ensures !ContainsIgnoringCase(FlipboardProxy, w)
  {
    FlipboardProxyLetters1();
    FlipboardProxyLetters2();
    FlipboardProxyLetters3();
    FlipboardProxyLetters4();
    FlipboardProxyLetters5();
    FlipboardProxyLetters6();
    FlipboardProxyLetters7();
    assert Fold(FlipboardProxy2[0]) == ' ' && Fold(FlipboardProxy3[0]) == 'f' && Fold(FlipboardProxy4[0]) == '/' && Fold(FlipboardProxy5[0]) == 'f';
    AbsentIgnoringCase(FlipboardProxy1, w, xs[0]);
    AbsentAcrossSeam(FlipboardProxy1, FlipboardProxy2, w, xs[1]);
    AbsentAcrossSeam(FlipboardProxy1 + FlipboardProxy2, FlipboardProxy3, w, xs[2]);
    AbsentAcrossSeam(FlipboardProxy1 + FlipboardProxy2 + FlipboardProxy3, FlipboardProxy4, w, xs[3]);
    AbsentAcrossSeam(FlipboardProxy1 + FlipboardProxy2 + FlipboardProxy3 + FlipboardProxy4, FlipboardProxy5, w, xs[4]);
  }

  lemma FlipboardProxyWithoutBot()
    ensures !ContainsIgnoringCase(FlipboardProxy, "bot")
  {
    FlipboardProxyLacks("bot", "bbtbt");
  }

  lemma FlipboardProxyWithoutBing()
    ensures !ContainsIgnoringCase(FlipboardProxy, "bing")
  {
    FlipboardProxyLacks("bing", "bbgbg");
  }

  lemma FlipboardProxyWithoutMsnbot()
    ensures !ContainsIgnoringCase(FlipboardProxy, "msnbot")
  {
    FlipboardProxyLacks("msnbot", "bbmbt");
  }

  lemma FlipboardProxyWithoutYandexbot()
    ensures !ContainsIgnoringCase(FlipboardProxy, "yandexbot")
  {
    FlipboardProxyLacks("yandexbot", "bbtbt");
  }

  lemma FlipboardProxyWithoutPinterest()
    ensures !ContainsIgnoringCase(FlipboardProxy, "pinterest")
  {
    FlipboardProxyLacks("pinterest", "ritit");
  }

  lemma FlipboardProxyWithoutMailRu()
    ensures !ContainsIgnoringCase(FlipboardProxy, "mail.ru")
  {
    FlipboardProxyLacks("mail.ru", "rimiu");
  }

  /** No keyword of the deny list occurs in `FlipboardProxy`. */
  lemma FlipboardProxyNotDenied()
    ensures !DenyRegex(FlipboardProxy)
  {
    FlipboardProxyWithoutBot();
    NotFollowedByIgnoringCase(FlipboardProxy, "google", "bot");
    FlipboardProxyWithoutBing();
    FlipboardProxyWithoutMsnbot();
    FlipboardProxyWithoutYandexbot();
    FlipboardProxyWithoutPinterest();
    NotFollowedByIgnoringCase(FlipboardProxy, "pinterest", "ios");
    FlipboardProxyWithoutMailRu();
  }

  lemma FlipboardProxyPrerendered()
    ensures AllowRegex(FlipboardProxy)
    ensures IsPrerender(AgentRequest(SubPath, FlipboardProxy))
  {
    assert OccursIgnoringCase(FlipboardProxy3, "flipboardproxy", 14);
    FoundInSuffix(FlipboardProxy1 + FlipboardProxy2, FlipboardProxy3, "flipboardproxy");
    FoundInPrefix(FlipboardProxy1 + FlipboardProxy2 + FlipboardProxy3, FlipboardProxy4, "flipboardproxy");
    FoundInPrefix(FlipboardProxy1 + FlipboardProxy2 + FlipboardProxy3 + FlipboardProxy4, FlipboardProxy5, "flipboardproxy");
    FlipboardProxyNotDenied();
    DotlessPathNotStatic(SubPath);
  }

  /** A User-Agent naming a bot. */
  const GenericBot1: string := "A string that contain"
  const GenericBot2: string := " the word bot ...."
  const GenericBot: string := GenericBot1 + GenericBot2

  // The letters each piece of `GenericBot` lacks, ignoring case.
  lemma GenericBotLetters1()
    ensures LacksIgnoringCase(GenericBot1, '.')
    ensures LacksIgnoringCase(GenericBot1, 'b')
  {
  }

  lemma GenericBotLetters2()
    ensures LacksIgnoringCase(GenericBot1, 'e')
    ensures LacksIgnoringCase(GenericBot2, 'l')
    ensures LacksIgnoringCase(GenericBot2, 'n')
  {
  }

  /** A keyword that lacks, in each piece of `GenericBot`, the letter `xs`
      names for it, and holds no character a piece begins with, does
      not match `GenericBot`: no match can straddle two pieces. */
  lemma GenericBotLacks(w: string, xs: string)
    requires FoldedPattern(w) && |xs| == 2 && forall i :: 0 <= i < 2 ==> xs[i] in w
    requires xs[0] in {'.', 'b', 'e'} && xs[1] in {'l', 'n'}
    requires ' ' !in w
    ensures !ContainsIgnoringCase(GenericBot, w)
  {
    GenericBotLetters1();
    GenericBotLetters2();
    assert Fold(GenericBot2[0]) == ' ';
    AbsentIgnoringCase(GenericBot1, w, xs[0]);
    AbsentAcrossSeam(GenericBot1, GenericBot2, w, xs[1]);
  }

  lemma GenericBotWithoutGoogle()
    ensures !ContainsIgnoringCase(GenericBot, "google")
  {
    GenericBotLacks("google", "el");
  }

  lemma GenericBotWithoutBing()
    ensures !ContainsIgnoringCase(GenericBot, "bing")
  {
    GenericBotLacks("bing", "bn");
  }

  lemma GenericBotWithoutMsnbot()
    ensures !ContainsIgnoringCase(GenericBot, "msnbot")
  {
    GenericBotLacks("msnbot", "bn");
  }

  lemma GenericBotWithoutYandexbot()
    ensures !ContainsIgnoringCase(GenericBot, "yandexbot")
  {
    GenericBotLacks("yandexbot", "bn");
  }

  lemma GenericBotWithoutPinterest()
    ensures !ContainsIgnoringCase(GenericBot, "pinterest")
  {
    GenericBotLacks("pinterest", "en");
  }

  lemma GenericBotWithoutMailRu()
    ensures !ContainsIgnoringCase(GenericBot, "mail.ru")
  {
    GenericBotLacks("mail.ru", ".l");
  }

  /** No keyword of the deny list occurs in `GenericBot`. */
  lemma GenericBotNotDenied()
    ensures !DenyRegex(GenericBot)
  {
    GenericBotWithoutGoogle();
    NotFollowedByIgnoringCase(GenericBot, "google", "bot");
    GenericBotWithoutBing();
    GenericBotWithoutMsnbot();
    GenericBotWithoutYandexbot();
    GenericBotWithoutPinterest();
    NotFollowedByIgnoringCase(GenericBot, "pinterest", "ios");
    GenericBotWithoutMailRu();
  }

  lemma GenericBotPrerendered()
    ensures AllowRegex(GenericBot)
    ensures IsPrerender(AgentRequest(SubPath, GenericBot))
  {
    assert OccursIgnoringCase(GenericBot2, "bot", 10);
    FoundInSuffix(GenericBot1, GenericBot2, "bot");
    GenericBotNotDenied();
    DotlessPathNotStatic(SubPath);
  }

  /** A User-Agent naming a spider. */
  const GenericSpider1: string := "A string that contain"
  const GenericSpider2: string := " the word spider ...."
  const GenericSpider: string := GenericSpider1 + GenericSpider2

  // The letters each piece of `GenericSpider` lacks, ignoring case.
  lemma GenericSpiderLetters1()
    ensures LacksIgnoringCase(GenericSpider1, '.')
    ensures LacksIgnoringCase(GenericSpider1, 'b')
  {
  }

  lemma GenericSpiderLetters2()
    ensures LacksIgnoringCase(GenericSpider1, 'e')
    ensures LacksIgnoringCase(GenericSpider2, 'l')
  {
  }

  lemma GenericSpiderLetters3()
    ensures LacksIgnoringCase(GenericSpider2, 'n')
  {
  }

  /** A keyword that lacks, in each piece of `GenericSpider`, the letter `xs`
      names for it, and holds no character a piece begins with, does
      not match `GenericSpider`: no match can straddle two pieces. */
  lemma GenericSpiderLacks(w: string, xs: string)
    requires FoldedPattern(w) && |xs| == 2 && forall i :: 0 <= i < 2 ==> xs[i] in w
    requires xs[0] in {'.', 'b', 'e'} && xs[1] in {'l', 'n'}
    requires ' ' !in w
    ensures !ContainsIgnoringCase(GenericSpider, w)
  {
    GenericSpiderLetters1();
    GenericSpiderLetters2();
    GenericSpiderLetters3();
    assert Fold(GenericSpider2[0]) == ' ';
    AbsentIgnoringCase(GenericSpider1, w, xs[0]);
    AbsentAcrossSeam(GenericSpider1, GenericSpider2, w, xs[1]);
  }

  lemma GenericSpiderWithoutGoogle()
    ensures !ContainsIgnoringCase(GenericSpider, "google")
  {
    GenericSpiderLacks("google", "el");
  }

  lemma GenericSpiderWithoutBing()
    ensures !ContainsIgnoringCase(GenericSpider, "bing")
  {
    GenericSpiderLacks("bing", "bn");
  }

  lemma GenericSpiderWithoutMsnbot()
    ensures !ContainsIgnoringCase(GenericSpider, "msnbot")
  {
    GenericSpiderLacks("msnbot", "bn");
  }

  lemma GenericSpiderWithoutYandexbot()
    ensures !ContainsIgnoringCase(GenericSpider, "yandexbot")
  {
    GenericSpiderLacks("yandexbot", "bn");
  }

  lemma GenericSpiderWithoutPinterest()
    ensures !ContainsIgnoringCase(GenericSpider, "pinterest")
  {
    GenericSpiderLacks("pinterest", "en");
  }

  lemma GenericSpiderWithoutMailRu()
    ensures !ContainsIgnoringCase(GenericSpider, "mail.ru")
  {
    GenericSpiderLacks("mail.ru", ".l");
  }

  /** No keyword of the deny list occurs in `GenericSpider`. */
  lemma GenericSpiderNotDenied()
    ensures !DenyRegex(GenericSpider)
  {
    GenericSpiderWithoutGoogle();
    NotFollowedByIgnoringCase(GenericSpider, "google", "bot");
    GenericSpiderWithoutBing();
    GenericSpiderWithoutMsnbot();
    GenericSpiderWithoutYandexbot();
    GenericSpiderWithoutPinterest();
    NotFollowedByIgnoringCase(GenericSpider, "pinterest", "ios");
    GenericSpiderWithoutMailRu();
  }

  lemma GenericSpiderPrerendered()
    ensures AllowRegex(GenericSpider)
    ensures IsPrerender(AgentRequest(SubPath, GenericSpider))
  {
    assert OccursIgnoringCase(GenericSpider2, "spider", 10);
    FoundInSuffix(GenericSpider1, GenericSpider2, "spider");
    GenericSpiderNotDenied();
    DotlessPathNotStatic(SubPath);
  }

  /** A User-Agent naming a crawler. */
  const GenericCrawler1: string := "A string that contain"
  const GenericCrawler2: string := " the word crawler ...."
  const GenericCrawler: string := GenericCrawler1 + GenericCrawler2

  // The letters each piece of `GenericCrawler` lacks, ignoring case.
  lemma GenericCrawlerLetters1()
    ensures LacksIgnoringCase(GenericCrawler1, '.')
    ensures LacksIgnoringCase(GenericCrawler1, 'b')
  {
  }

  lemma GenericCrawlerLetters2()
    ensures LacksIgnoringCase(GenericCrawler1, 'e')
    ensures LacksIgnoringCase(GenericCrawler2, 'b')
  {
  }

  lemma GenericCrawlerLetters3()
    ensures LacksIgnoringCase(GenericCrawler2, 'i')
  {
  }

  /** A keyword that lacks, in each piece of `GenericCrawler`, the letter `xs`
      names for it, and holds no character a piece begins with, does
      not match `GenericCrawler`: no match can straddle two pieces. */
  lemma GenericCrawlerLacks(w: string, xs: string)
    requires FoldedPattern(w) && |xs| == 2 && forall i :: 0 <= i < 2 ==> xs[i] in w
    requires xs[0] in {'.', 'b', 'e'} && xs[1] in {'b', 'i'}
    requires ' ' !in w
    ensures !ContainsIgnoringCase(GenericCrawler, w)
  {
    GenericCrawlerLetters1();
    GenericCrawlerLetters2();
    GenericCrawlerLetters3();
    assert Fold(GenericCrawler2[0]) == ' ';
    AbsentIgnoringCase(GenericCrawler1, w, xs[0]);
    AbsentAcrossSeam(GenericCrawler1, GenericCrawler2, w, xs[1]);
  }

  lemma GenericCrawlerWithoutBot()
    ensures !ContainsIgnoringCase(GenericCrawler, "bot")
  {
    GenericCrawlerLacks("bot", "bb");
  }

  lemma GenericCrawlerWithoutBing()
    ensures !ContainsIgnoringCase(GenericCrawler, "bing")
  {
    GenericCrawlerLacks("bing", "bb");
  }

  lemma GenericCrawlerWithoutMsnbot()
    ensures !ContainsIgnoringCase(GenericCrawler, "msnbot")
  {
    GenericCrawlerLacks("msnbot", "bb");
  }

  lemma GenericCrawlerWithoutYandexbot()
    ensures !ContainsIgnoringCase(GenericCrawler, "yandexbot")
  {
    GenericCrawlerLacks("yandexbot", "bb");
  }

  lemma GenericCrawlerWithoutPinterest()
    ensures !ContainsIgnoringCase(GenericCrawler, "pinterest")
  {
    GenericCrawlerLacks("pinterest", "ei");
  }

  lemma GenericCrawlerWithoutMailRu()
    ensures !ContainsIgnoringCase(GenericCrawler, "mail.ru")
  {
    GenericCrawlerLacks("mail.ru", ".i");
  }

  /** No keyword of the deny list occurs in `GenericCrawler`. */
  lemma GenericCrawlerNotDenied()
    ensures !DenyRegex(GenericCrawler)
  {
    GenericCrawlerWithoutBot();
    NotFollowedByIgnoringCase(GenericCrawler, "google", "bot");
    GenericCrawlerWithoutBing();
    GenericCrawlerWithoutMsnbot();
    GenericCrawlerWithoutYandexbot();
    GenericCrawlerWithoutPinterest();
    NotFollowedByIgnoringCase(GenericCrawler, "pinterest", "ios");
    GenericCrawlerWithoutMailRu();
  }

  lemma GenericCrawlerPrerendered()
    ensures AllowRegex(GenericCrawler)
    ensures IsPrerender(AgentRequest(SubPath, GenericCrawler))
  {
    assert OccursIgnoringCase(GenericCrawler2, "crawler", 10);
    FoundInSuffix(GenericCrawler1, GenericCrawler2, "crawler");
    GenericCrawlerNotDenied();
    DotlessPathNotStatic(SubPath);
  }

  /** A User-Agent naming an archiver. */
  const GenericArchiver1: string := "A string that contain"
  const GenericArchiver2: string := " the word archiver ...."
  const GenericArchiver: string := GenericArchiver1 + GenericArchiver2

  // The letters each piece of `GenericArchiver` lacks, ignoring case.
  lemma GenericArchiverLetters1()
    ensures LacksIgnoringCase(GenericArchiver1, '.')
    ensures LacksIgnoringCase(GenericArchiver1, 'b')
  {
  }

  lemma GenericArchiverLetters2()
    ensures LacksIgnoringCase(GenericArchiver1, 'e')
    ensures LacksIgnoringCase(GenericArchiver2, 'l')
  {
  }

  lemma GenericArchiverLetters3()
    ensures LacksIgnoringCase(GenericArchiver2, 'n')
  {
  }

  /** A keyword that lacks, in each piece of `GenericArchiver`, the letter `xs`
      names for it, and holds no character a piece begins with, does
      not match `GenericArchiver`: no match can straddle two pieces. */
  lemma GenericArchiverLacks(w: string, xs: string)
    requires FoldedPattern(w) && |xs| == 2 && forall i :: 0 <= i < 2 ==> xs[i] in w
    requires xs[0] in {'.', 'b', 'e'} && xs[1] in {'l', 'n'}
    requires ' ' !in w
    ensures !ContainsIgnoringCase(GenericArchiver, w)
  {
    GenericArchiverLetters1();
    GenericArchiverLetters2();
    GenericArchiverLetters3();
    assert Fold(GenericArchiver2[0]) == ' ';
    AbsentIgnoringCase(GenericArchiver1, w, xs[0]);
    AbsentAcrossSeam(GenericArchiver1, GenericArchiver2, w, xs[1]);
  }

  lemma GenericArchiverWithoutGoogle()
    ensures !ContainsIgnoringCase(GenericArchiver, "google")
  {
    GenericArchiverLacks("google", "el");
  }

  lemma GenericArchiverWithoutBing()
    ensures !ContainsIgnoringCase(GenericArchiver, "bing")
  {
    GenericArchiverLacks("bing", "bn");
  }

  lemma GenericArchiverWithoutMsnbot()
    ensures !ContainsIgnoringCase(GenericArchiver, "msnbot")
  {
    GenericArchiverLacks("msnbot", "bn");
  }

  lemma GenericArchiverWithoutYandexbot()
    ensures !ContainsIgnoringCase(GenericArchiver, "yandexbot")
  {
    GenericArchiverLacks("yandexbot", "bn");
  }

  lemma GenericArchiverWithoutPinterest()
    ensures !ContainsIgnoringCase(GenericArchiver, "pinterest")
  {
    GenericArchiverLacks("pinterest", "en");
  }

  lemma GenericArchiverWithoutMailRu()
    ensures !ContainsIgnoringCase(GenericArchiver, "mail.ru")
  {
    GenericArchiverLacks("mail.ru", ".l");
  }

  /** No keyword of the deny list occurs in `GenericArchiver`. */
  lemma GenericArchiverNotDenied()
    ensures !DenyRegex(GenericArchiver)
  {
    GenericArchiverWithoutGoogle();
    NotFollowedByIgnoringCase(GenericArchiver, "google", "bot");
    GenericArchiverWithoutBing();
    GenericArchiverWithoutMsnbot();
    GenericArchiverWithoutYandexbot();
    GenericArchiverWithoutPinterest();
    NotFollowedByIgnoringCase(GenericArchiver, "pinterest", "ios");
    GenericArchiverWithoutMailRu();
  }

  lemma GenericArchiverPrerendered()
    ensures AllowRegex(GenericArchiver)
    ensures IsPrerender(AgentRequest(SubPath, GenericArchiver))
  {
    assert OccursIgnoringCase(GenericArchiver2, "archiver", 10);
    FoundInSuffix(GenericArchiver1, GenericArchiver2, "archiver");
    GenericArchiverNotDenied();
    DotlessPathNotStatic(SubPath);
  }

  /** The Flipboard app on Android: a browser, not a crawler. */
  const FlipboardAndroid1: string := "Mozilla/5.0 (Linux; U; Android"
  const FlipboardAndroid2: string := " 4.3; en-us; SAMSUNG-SGH-I337 Build/"
  const FlipboardAndroid3: string := "JSS15J) AppleWebKit/534.30 (KHTML, like "
  const FlipboardAndroid4: string := "Gecko) Version/4.0 Mobile"
  const FlipboardAndroid5: string := " Safari/534.30 Flipboard/2.2.3/209"
  const FlipboardAndroid6: string := "4,2.2.3.2094,2014-01-29 16:51, -0500, us"
  const FlipboardAndroid: string := FlipboardAndroid1 + FlipboardAndroid2 + FlipboardAndroid3 + FlipboardAndroid4 + FlipboardAndroid5 + FlipboardAndroid6

  // The letters each piece of `FlipboardAndroid` lacks, ignoring case.
  lemma FlipboardAndroidLetters1()
    ensures LacksIgnoringCase(FlipboardAndroid1, 'b')
    ensures LacksIgnoringCase(FlipboardAndroid1, 'e')
  {
  }

  lemma FlipboardAndroidLetters2()
    ensures LacksIgnoringCase(FlipboardAndroid2, 'o')
  {
  }

  lemma FlipboardAndroidLetters3()
    ensures LacksIgnoringCase(FlipboardAndroid2, 'r')
  {
  }

  lemma FlipboardAndroidLetters4()
    ensures LacksIgnoringCase(FlipboardAndroid3, 'o')
  {
  }

  lemma FlipboardAndroidLetters5()
    ensures LacksIgnoringCase(FlipboardAndroid3, 'r')
  {
  }

  lemma FlipboardAndroidLetters6()
    ensures LacksIgnoringCase(FlipboardAndroid4, 'a')
    ensures LacksIgnoringCase(FlipboardAndroid4, 'd')
  {
  }

  lemma FlipboardAndroidLetters7()
    ensures LacksIgnoringCase(FlipboardAndroid4, 't')
    ensures LacksIgnoringCase(FlipboardAndroid5, 'e')
  {
  }

  lemma FlipboardAndroidLetters8()
    ensures LacksIgnoringCase(FlipboardAndroid5, 't')
  {
  }

  lemma FlipboardAndroidLetters9()
    ensures LacksIgnoringCase(FlipboardAndroid5, 'x')
  {
  }

  lemma FlipboardAndroidLetters10()
    ensures LacksIgnoringCase(FlipboardAndroid6, 'b')
  {
  }

  lemma FlipboardAndroidLetters11()
    ensures LacksIgnoringCase(FlipboardAndroid6, 'e')
  {
  }

  /** A keyword that lacks, in each piece of `FlipboardAndroid`, the letter `xs`
      names for it, and holds no character a piece begins with, does
      not match `FlipboardAndroid`: no match can straddle two pieces. */
  lemma FlipboardAndroidLacks(w: string, xs: string)
    requires FoldedPattern(w) && |xs| == 6 && forall i :: 0 <= i < 6 ==> xs[i] in w
    requires xs[0] in {'b', 'e'} && xs[1] in {'o', 'r'} && xs[2] in {'o', 'r'} && xs[3] in {'a', 'd', 't'} && xs[4] in {'e', 't', 'x'} && xs[5] in {'b', 'e'}
    requires ' ' !in w && '4' !in w && 'g' !in w && 'j' !in w
    ensures !ContainsIgnoringCase(FlipboardAndroid, w)
  {
    FlipboardAndroidLetters1();
    FlipboardAndroidLetters2();
    FlipboardAndroidLetters3();
    FlipboardAndroidLetters4();
    FlipboardAndroidLetters5();
    FlipboardAndroidLetters6();
    FlipboardAndroidLetters7();
    FlipboardAndroidLetters8();
    FlipboardAndroidLetters9();
    FlipboardAndroidLetters10();
    FlipboardAndroidLetters11();
    assert Fold(FlipboardAndroid2[0]) == ' ' && Fold(FlipboardAndroid3[0]) == 'j' && Fold(FlipboardAndroid4[0]) == 'g' && Fold(FlipboardAndroid5[0]) == ' ' && Fold(FlipboardAndroid6[0]) == '4';
    AbsentIgnoringCase(FlipboardAndroid1, w, xs[0]);
    AbsentAcrossSeam(FlipboardAndroid1, FlipboardAndroid2, w, xs[1]);
    AbsentAcrossSeam(FlipboardAndroid1 + FlipboardAndroid2, FlipboardAndroid3, w, xs[2]);
    AbsentAcrossSeam(FlipboardAndroid1 + FlipboardAndroid2 + FlipboardAndroid3, FlipboardAndroid4, w, xs[3]);
    AbsentAcrossSeam(FlipboardAndroid1 + FlipboardAndroid2 + FlipboardAndroid3 + FlipboardAndroid4, FlipboardAndroid5, w, xs[4]);
    AbsentAcrossSeam(FlipboardAndroid1 + FlipboardAndroid2 + FlipboardAndroid3 + FlipboardAndroid4 + FlipboardAndroid5, FlipboardAndroid6, w, xs[5]);
  }

  lemma FlipboardAndroidWithoutBot()
    ensures !ContainsIgnoringCase(FlipboardAndroid, "bot")
  {
    FlipboardAndroidLacks("bot", "boottb");
  }

  lemma FlipboardAndroidWithoutCrawler()
    ensures !ContainsIgnoringCase(FlipboardAndroid, "crawler")
  {
    FlipboardAndroidLacks("crawler", "erraee");
  }

  lemma FlipboardAndroidWithoutSpider()
    ensures !ContainsIgnoringCase(FlipboardAndroid, "spider")
  {
    FlipboardAndroidLacks("spider", "errdee");
  }

  lemma FlipboardAndroidWithoutArchiver()
    ensures !ContainsIgnoringCase(FlipboardAndroid, "archiver")
  {
    FlipboardAndroidLacks("archiver", "erraee");
  }

  lemma FlipboardAndroidWithoutPinterest()
    ensures !ContainsIgnoringCase(FlipboardAndroid, "pinterest")
  {
    FlipboardAndroidLacks("pinterest", "errtee");
  }

  lemma FlipboardAndroidWithoutFacebookexternalhit()
    ensures !ContainsIgnoringCase(FlipboardAndroid, "facebookexternalhit")
  {
    FlipboardAndroidLacks("facebook", "booaeb");
    assert "facebookexternalhit"[0..8] == "facebook";
    PartMatches(FlipboardAndroid, "facebookexternalhit", 0, 8);
  }

  lemma FlipboardAndroidWithoutFlipboardproxy()
    ensures !ContainsIgnoringCase(FlipboardAndroid, "flipboardproxy")
  {
    FlipboardAndroidLacks("boardprox", "booaxb");
    assert "flipboardproxy"[4..13] == "boardprox";
    PartMatches(FlipboardAndroid, "flipboardproxy", 4, 13);
  }

  /** No keyword of the allow list occurs in `FlipboardAndroid`. */
  lemma FlipboardAndroidNotAllowed()
    ensures !AllowRegex(FlipboardAndroid)
  {
    FlipboardAndroidWithoutBot();
    FlipboardAndroidWithoutCrawler();
    FlipboardAndroidWithoutSpider();
    FlipboardAndroidWithoutArchiver();
    FlipboardAndroidWithoutPinterest();
    FlipboardAndroidWithoutFacebookexternalhit();
    FlipboardAndroidWithoutFlipboardproxy();
  }

  lemma FlipboardAndroidNotPrerendered()
    ensures !IsPrerender(AgentRequest(SubPath, FlipboardAndroid))
  {
    FlipboardAndroidNotAllowed();
  }

  // ---------------------------------------------------------------------
  // User-Agents of the deny list

  /** Bing's crawler, cut around its first `bing`. */
  const BingbotBefore: string := "Mozilla/5.0 (compatible; "
  const BingbotAfter: string := "bot/2.0; +http://www.bing.com/bingbot.htm)"
  const Bingbot: string := BingbotBefore + "bing" + BingbotAfter

  /** Bingbot names a bot too, and is still refused. */
  lemma BingbotNotPrerendered()
    ensures DenyRegex(Bingbot) && AllowRegex(Bingbot)
    ensures !IsPrerender(AgentRequest(SubPath, Bingbot))
  {
    FoundIgnoringCase(BingbotBefore, "bing", BingbotAfter, "bing");
    assert OccursIgnoringCase(BingbotAfter, "bot", 0);
    FoundInSuffix(BingbotBefore + "bing", BingbotAfter, "bot");
  }

  /** Yandex's crawler, cut around `YandexBot`. */
  const YandexBefore: string := "Mozilla/5.0 (compatible; "
  const YandexAfter: string := "/3.0; +http://yandex.com/bots)"
  const YandexBot: string := YandexBefore + "YandexBot" + YandexAfter

  lemma YandexBotNotPrerendered()
    ensures DenyRegex(YandexBot)
    ensures !IsPrerender(AgentRequest(SubPath, YandexBot))
  {
    FoundIgnoringCase(YandexBefore, "YandexBot", YandexAfter, "yandexbot");
  }

  /** Mail.RU's crawler, cut around `Mail.RU`. */
  const MailRuBefore: string := "Mozilla/5.0 (compatible; Linux x86_64; "
  const MailRuAfter: string := "_Bot/2.0; +http://go.mail.ru/help/robots)"
  const MailRuBot: string := MailRuBefore + "Mail.RU" + MailRuAfter

  lemma MailRuBotNotPrerendered()
    ensures DenyRegex(MailRuBot)
    ensures !IsPrerender(AgentRequest(SubPath, MailRuBot))
  {
    FoundIgnoringCase(MailRuBefore, "Mail.RU", MailRuAfter, "mail.ru");
  }

  /** The Pinterest iOS app: `Pinterest`, then `iOS` on the same line. */
  const PinterestIosBefore: string :=
    "Mozilla/5.0 (iPad; CPU OS 7_0 like Mac OS X) AppleWebKit/537.51.1 (KHTML, like Gecko) Mobile/11A465 ["
  const PinterestIos: string := PinterestIosBefore + "Pinterest" + "/" + "iOS" + "]"

  /** The app names `pinterest`, which the allow list accepts, and is
      still refused. */
  lemma PinterestIosNotPrerendered()
    ensures DenyRegex(PinterestIos) && AllowRegex(PinterestIos)
    ensures !IsPrerender(AgentRequest(SubPath, PinterestIos))
  {
    FoundFollowedBy(PinterestIosBefore, "Pinterest", "/", "iOS", "]", "pinterest", "ios");
    FoundIgnoringCase(PinterestIosBefore, "Pinterest", "/" + "iOS" + "]", "pinterest");
    assert PinterestIosBefore + "Pinterest" + ("/" + "iOS" + "]") == PinterestIos;
  }

  // ---------------------------------------------------------------------
  // Static files

  /** A User-Agent the allow list accepts. */
  const AnyBot: string := "Any bot that gets filtered by its user-agent."

  lemma AnyBotAllowed()
    ensures AllowRegex(AnyBot)
  {
    assert OccursIgnoringCase(AnyBot, "bot", 4);
  }

  const StaticQuery: string := "query=something"

  /** A `.js`, `.png` or `.html` file is refused to any bot, with or
      without a query. */
  lemma StaticFilesNotPrerendered()
    ensures !IsPrerender(AgentRequest("/path/subpath.js", AnyBot))
    ensures !IsPrerender(AgentRequest("/path/subpath.png", AnyBot))
    ensures !IsPrerender(AgentRequest("/path/subpath.html", AnyBot))
    ensures !IsPrerender(AgentQueryRequest("/path/subpath.js", StaticQuery, AnyBot))
    ensures !IsPrerender(AgentQueryRequest("/path/subpath.png", StaticQuery, AnyBot))
    ensures !IsPrerender(AgentQueryRequest("/path/subpath.html", StaticQuery, AnyBot))
  {
    AbsentWithoutCharacter(StaticQuery, EscapedFragment, 0);
    StaticPathExcluded(AgentRequest("/path/subpath.js", AnyBot), 13);
    StaticPathExcluded(AgentRequest("/path/subpath.png", AnyBot), 13);
    StaticPathExcluded(AgentRequest("/path/subpath.html", AnyBot), 13);
    StaticPathExcluded(AgentQueryRequest("/path/subpath.js", StaticQuery, AnyBot), 13);
    StaticPathExcluded(AgentQueryRequest("/path/subpath.png", StaticQuery, AnyBot), 13);
    StaticPathExcluded(AgentQueryRequest("/path/subpath.html", StaticQuery, AnyBot), 13);
  }

  /** Scripts, style sheets and pages are refused whatever the
      User-Agent; the tests send Googlebot. */
  lemma SomefileNotPrerendered()
    ensures !IsPrerender(AgentRequest("/somefile.js", "Googlebot"))
    ensures !IsPrerender(AgentRequest("/somefile.css", "Googlebot"))
    ensures !IsPrerender(AgentRequest("/somefile.html", "Googlebot"))
  {
    StaticPathExcluded(AgentRequest("/somefile.js", "Googlebot"), 9);
    StaticPathExcluded(AgentRequest("/somefile.css", "Googlebot"), 9);
    StaticPathExcluded(AgentRequest("/somefile.html", "Googlebot"), 9);
  }

  /** `/index.html` is a static file like any other; a version number
      with one digit after its dot and a one-letter extension are not. */
  lemma PathExamples()
    ensures StaticPath("/index.html") && StaticPath("/a.js")
    ensures !StaticPath("/v1.0") && !StaticPath("/a.c")
  {
    assert ExtensionDotAt("/index.html", 6);
    assert ExtensionDotAt("/a.js", 2);
    PathRegexIsExtensionDot("/index.html");
    PathRegexIsExtensionDot("/a.js");
    PathRegexIsExtensionDot("/v1.0");
    PathRegexIsExtensionDot("/a.c");
  }

  /** Googlebot carries `google` and then `bot` on one line, so the deny
      list refuses it. */
  lemma GooglebotNotPrerendered()
    ensures DenyRegex("Googlebot")
    ensures !IsPrerender(AgentRequest(SubPath, "Googlebot"))
  {
    FoundFollowedBy("", "Google", "", "bot", "", "google", "bot");
    assert "" + "Google" + "" + "bot" + "" == "Googlebot";
  }

  // ---------------------------------------------------------------------
  // The escaped-fragment query

  const FragmentQuery: string := EscapedFragment + "=fragment"
  const EmptyFragmentQuery: string := EscapedFragment + "="
  const OtherQuery: string := "withQuery=parameter"
  const SecondQuery: string := "param1=val1&" + EmptyFragmentQuery

  /** Without a User-Agent, a query not naming the escaped fragment is
      not prerendered. */
  lemma OtherQueryNotPrerendered()
    ensures !IsPrerender(PlainRequest("GET", OtherQuery))
  {
    AbsentWithoutCharacter(OtherQuery, EscapedFragment, 0);
    NoAgentNotPrerendered(PlainRequest("GET", OtherQuery));
  }

  /** The escaped-fragment query alone decides, with or without a value. */
  lemma FragmentQueriesPrerendered()
    ensures IsPrerender(PlainRequest("GET", FragmentQuery))
    ensures IsPrerender(PlainRequest("GET", EmptyFragmentQuery))
  {
    assert Occurs(EscapedFragment, EscapedFragment, 0);
    OccursInPrefix(EscapedFragment, "=fragment", EscapedFragment, 0);
    OccursInPrefix(EscapedFragment, "=", EscapedFragment, 0);
  }

  /** The escaped fragment counts as a later query parameter too, for GET
      and HEAD but not for POST. */
  lemma SecondParameterPrerendered()
    ensures IsPrerender(PlainRequest("GET", SecondQuery))
    ensures IsPrerender(PlainRequest("HEAD", SecondQuery))
    ensures !IsPrerender(PlainRequest("POST", SecondQuery))
  {
    assert Occurs(EscapedFragment, EscapedFragment, 0);
    OccursInPrefix(EscapedFragment, "=", EscapedFragment, 0);
    OccursInSuffix("param1=val1&", EmptyFragmentQuery, EscapedFragment, 0);
  }
}
