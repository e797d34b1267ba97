/**
 * The news plugin (plugins/news_plugin.py): build the request parameters for the
 * top-headlines endpoint, classify the decoded response by its `status` member, and
 * project each article onto a headline record. The HTTP request is a parameter, `Fetch`.
 */
module News {
  import opened Wrappers
  import opened Json

  /** The defaults of `run(country="us", category=None)`. */
  const DefaultCountry: string := "us"
  const DefaultCategory: Option<string> := None

  const MissingKeyMessage: string := "API key not found. Please set NEWS_API_KEY in your .env file"
  const UnknownErrorMessage: string := "Unknown error from NewsAPI"
  const FetchErrorPrefix: string := "Failed to fetch news: "
  const ParseErrorPrefix: string := "Failed to parse news data: "

  /** A query parameter of the request, in insertion order. */
  type Param = (string, string)

  /**
   * What the HTTP request produced: a `RequestException` (a transport failure, a status
   * rejected by `raise_for_status`, or a body that is not JSON) with its text, or the
   * decoded body.
   */
  datatype Fetch = RequestFailed(reason: string) | Received(data: Value)

  /** One headline: title, description and url of the article, and its source's name. */
  datatype Headline = Headline(title: Value, description: Value, url: Value, source: Value)

  /**
   * The record `run` returns: `{"error": ..., "status": "error"}` or
   * `{"status": "success", "country": ..., "category": ..., "headlines": [...]}`.
   */
  datatype NewsRecord =
    | ErrorRecord(error: Value)
    | SuccessRecord(country: string, category: Option<string>, headlines: seq<Headline>)
  {
    /** The record's `status` member. */
    function Status(): string {
      if ErrorRecord? then "error" else "success"
    }
  }

  /** `run` returns a record, or raises an exception its handlers do not catch. */
  datatype Outcome = Returned(record: NewsRecord) | Raised

  /** The Python exceptions met while reading the decoded body. */
  datatype PyError = KeyError(key: string) | TypeError

  datatype Access<T> = Got(value: T) | Failed(error: PyError)

  /** Python truthiness of an optional string. */
  predicate Truthy(v: Option<string>) {
    v.Some? && v.value != ""
  }

  /** `v[key]`: a dict without the key raises KeyError, anything else but a dict TypeError. */
  function Index(v: Value, key: string): Access<Value> {
    match v
    case Obj(m) => if key in m then Got(m[key]) else Failed(KeyError(key))
    case _ => Failed(TypeError)
  }

  /** The headline of one article, its members read in the order Python evaluates them. */
  function Project(article: Value): Access<Headline> {
    match (Index(article, "title"), Index(article, "description"), Index(article, "url"), Index(article, "source"))
    case (Failed(e), _, _, _) => Failed(e)
    case (_, Failed(e), _, _) => Failed(e)
    case (_, _, Failed(e), _) => Failed(e)
    case (_, _, _, Failed(e)) => Failed(e)
    case (Got(t), Got(d), Got(u), Got(src)) =>
      match Index(src, "name")
      case Failed(e) => Failed(e)
      case Got(n) => Got(Headline(t, d, u, n))
  }

  /** The list comprehension over the articles: the first failing article ends it. */
  function Headlines(articles: seq<Value>): Access<seq<Headline>> {
    if articles == [] then Got([])
    else
      match (Project(articles[0]), Headlines(articles[1..]))
      case (Failed(e), _) => Failed(e)
      case (_, Failed(e)) => Failed(e)
      case (Got(h), Got(hs)) => Got([h] + hs)
  }

  /** `str(KeyError(key))` is the key in single quotes. */
  function ParseError(key: string): Value {
    Str(ParseErrorPrefix + "'" + key + "'")
  }

  /** Classify a decoded body: not "ok" is an error record; otherwise project the articles. */
  function Classify(data: Value, country: string, category: Option<string>): Outcome {
    if !data.Obj? then Raised
    else
      var m := data.fields;
      if !("status" in m && m["status"] == Str("ok")) then
        Returned(ErrorRecord(if "message" in m then m["message"] else Str(UnknownErrorMessage)))
      else
        match Elements(if "articles" in m then m["articles"] else Arr([]))
        case None => Raised
        case Some(articles) =>
          match Headlines(articles)
          case Got(hs) => Returned(SuccessRecord(country, category, hs))
          case Failed(KeyError(k)) => Returned(ErrorRecord(ParseError(k)))
          case Failed(TypeError) => Raised
  }

  /** The part of `run` after the request was sent. */
  function Respond(fetch: Fetch, country: string, category: Option<string>): Outcome {
    match fetch
    case RequestFailed(reason) => Returned(ErrorRecord(Str(FetchErrorPrefix + reason)))
    case Received(data) => Classify(data, country, category)
  }

  /** The query parameters: the key and the country, then the category when it is given. */
  method BuildParams(apiKey: string, country: string, category: Option<string>) returns (params: seq<Param>)
    ensures |params| >= 2 && params[0] == ("apiKey", apiKey) && params[1] == ("country", country)
    ensures |params| == 3 <==> Truthy(category)
    ensures |params| <= 3 && (|params| == 3 ==> params[2] == ("category", category.value))
  {
    params := [("apiKey", apiKey), ("country", country)];
    if Truthy(category) {
      params := params + [("category", category.value)];
    }
  }

  /**
   * `run(country, category)`: `request` is the query sent, or None when no request was made;
   * `fetch` is what that request produced.
   */
  method Run(apiKey: Option<string>, country: string, category: Option<string>, fetch: Fetch)
    returns (outcome: Outcome, request: Option<seq<Param>>)
    ensures !Truthy(apiKey) ==> outcome == Returned(ErrorRecord(Str(MissingKeyMessage))) && request.None?
    ensures Truthy(apiKey) ==> request.Some? && outcome == Respond(fetch, country, category)
    ensures request.Some? ==>
      var p := request.value;
      |p| >= 2 && p[0] == ("apiKey", apiKey.value) && p[1] == ("country", country) &&
      (|p| == 3 <==> Truthy(category)) && |p| <= 3 &&
      (|p| == 3 ==> p[2] == ("category", category.value))
  {
    if !Truthy(apiKey) {
      return Returned(ErrorRecord(Str(MissingKeyMessage))), None;
    }
    var params := BuildParams(apiKey.value, country, category);
    request := Some(params);
    outcome := Respond(fetch, country, category);
  }

  /** `run()` called without arguments: the country "us" and no category. */
  method RunWithDefaults(apiKey: Option<string>, fetch: Fetch) returns (outcome: Outcome, request: Option<seq<Param>>)
    ensures !Truthy(apiKey) ==> outcome == Returned(ErrorRecord(Str(MissingKeyMessage))) && request.None?
    ensures Truthy(apiKey) ==>
      request == Some([("apiKey", apiKey.value), ("country", "us")]) &&
      outcome == Respond(fetch, "us", None)
  {
    outcome, request := Run(apiKey, DefaultCountry, DefaultCategory, fetch);
    if request.Some? {
      assert |request.value| == 2;
      assert request.value == [request.value[0], request.value[1]];
    }
  }

  // ---------------------------------------------------------------------------------------
  // Lemmas
  // ---------------------------------------------------------------------------------------

  /** An article projects exactly when it is a dict with the four members and a named source. */
  lemma ProjectSpec(article: Value)
    ensures Project(article).Got? <==>
      article.Obj? && "title" in article.fields && "description" in article.fields &&
      "url" in article.fields && "source" in article.fields &&
      article.fields["source"].Obj? && "name" in article.fields["source"].fields
    ensures Project(article).Got? ==>
      var f := article.fields;
      Project(article).value == Headline(f["title"], f["description"], f["url"], f["source"].fields["name"])
  {
  }

  /** One headline per article, in the same order, when every article projects. */
  lemma {:induction false} HeadlinesPerArticle(articles: seq<Value>)
    ensures Headlines(articles).Got? <==> forall i :: 0 <= i < |articles| ==> Project(articles[i]).Got?
    ensures Headlines(articles).Got? ==>
      |Headlines(articles).value| == |articles| &&
      forall i :: 0 <= i < |articles| ==> Got(Headlines(articles).value[i]) == Project(articles[i])
  {
    if articles != [] {
      HeadlinesPerArticle(articles[1..]);
      if Headlines(articles[1..]).Got? && Project(articles[0]).Got? {
        forall i | 0 < i < |articles| ensures Project(articles[i]).Got? {
          assert articles[i] == articles[1..][i - 1];
        }
      }
      if forall i :: 0 <= i < |articles| ==> Project(articles[i]).Got? {
        forall i | 0 <= i < |articles[1..]| ensures Project(articles[1..][i]).Got? {
          assert articles[1..][i] == articles[i + 1];
        }
      }
    }
  }

  /** A failure of the comprehension is the failure of the first article that does not project. */
  lemma {:induction false} HeadlinesFirstFailure(articles: seq<Value>)
    requires Headlines(articles).Failed?
    ensures exists i :: (0 <= i < |articles| &&
      (forall j :: 0 <= j < i ==> Project(articles[j]).Got?) &&
      Project(articles[i]) == Failed(Headlines(articles).error))
  {
    if Project(articles[0]).Failed? {
      assert Project(articles[0]) == Failed(Headlines(articles).error);
    } else {
      HeadlinesFirstFailure(articles[1..]);
      var i :| 0 <= i < |articles[1..]| &&
        (forall j :: 0 <= j < i ==> Project(articles[1..][j]).Got?) &&
        Project(articles[1..][i]) == Failed(Headlines(articles[1..]).error);
      assert articles[i + 1] == articles[1..][i];
      forall j | 0 < j < i + 1 ensures Project(articles[j]).Got? {
        assert articles[j] == articles[1..][j - 1];
      }
    }
  }

  /** A body whose status is not "ok" gives its message, or the default, as the error. */
  lemma NotOkIsError(m: map<string, Value>, country: string, category: Option<string>)
    requires !("status" in m && m["status"] == Str("ok"))
    ensures Classify(Obj(m), country, category).Returned?
    ensures var r := Classify(Obj(m), country, category).record;
      r.Status() == "error" &&
      r.error == (if "message" in m then m["message"] else Str(UnknownErrorMessage))
  {
  }

  /**
   * A success record echoes the country and the category, comes from a body whose status
   * is "ok", and holds one headline per article in order (none when `articles` is absent).
   */
  lemma SuccessSpec(fetch: Fetch, country: string, category: Option<string>)
    requires Respond(fetch, country, category).Returned?
    requires Respond(fetch, country, category).record.SuccessRecord?
    ensures var r := Respond(fetch, country, category).record;
      r.Status() == "success" && r.country == country && r.category == category &&
      fetch.Received? && fetch.data.Obj? && fetch.data.fields["status"] == Str("ok")
    ensures var r := Respond(fetch, country, category).record;
      var m := fetch.data.fields;
      "articles" in m && m["articles"].Arr? ==>
        |r.headlines| == |m["articles"].items| &&
        forall i :: 0 <= i < |r.headlines| ==> Got(r.headlines[i]) == Project(m["articles"].items[i])
    ensures "articles" !in fetch.data.fields ==> Respond(fetch, country, category).record.headlines == []
  {
    assert fetch.Received? && fetch.data.Obj?;
    var m := fetch.data.fields;
    if "articles" in m && m["articles"].Arr? {
      HeadlinesPerArticle(m["articles"].items);
    }
  }

  /** A missing article member becomes an error record naming the key, not an exception. */
  lemma MissingMemberIsParseError(m: map<string, Value>, country: string, category: Option<string>, i: nat)
    requires "status" in m && m["status"] == Str("ok")
    requires "articles" in m && m["articles"].Arr? && i < |m["articles"].items|
    requires forall j :: 0 <= j < i ==> Project(m["articles"].items[j]).Got?
    requires Project(m["articles"].items[i]).Failed? && Project(m["articles"].items[i]).error.KeyError?
    ensures Classify(Obj(m), country, category) ==
      Returned(ErrorRecord(ParseError(Project(m["articles"].items[i]).error.key)))
  {
    var articles := m["articles"].items;
    HeadlinesUpToFailure(articles, i);
  }

  /** The comprehension stops at the first failing article, whatever follows it. */
  lemma {:induction false} HeadlinesUpToFailure(articles: seq<Value>, i: nat)
    requires i < |articles|
    requires forall j :: 0 <= j < i ==> Project(articles[j]).Got?
    requires Project(articles[i]).Failed?
    ensures Headlines(articles) == Failed(Project(articles[i]).error)
  {
    if i > 0 {
      forall j | 0 <= j < i - 1 ensures Project(articles[1..][j]).Got? {
        assert articles[1..][j] == articles[j + 1];
      }
      assert articles[1..][i - 1] == articles[i];
      HeadlinesUpToFailure(articles[1..], i - 1);
    }
  }
}
