/** The `get_daily_hot` tool of the daily-hot service: fetches one ranked
    list from a local aggregation service and renders it as text. */
module DailyHot {
  import opened Envelope
  import opened Text

  /** `NewsTypeEnum`: the ranked lists the tool's `type` argument may name. */
  datatype NewsType =
    | Zhihu
    | Weibo
    | Baidu
    | Douban
    | Toutiao
    | Bilibili
    | Douyin
    | Kuaishou
    | Hupu
    | Weread
    | Geekpark
    | Guokr
    | NeteaseNews
    | SinaNews
    | Kr36
    | Ithome
    | Thepaper
    | QqNews
    | Cls
    | Jin10
    | Wallstreet
    | Yicai
    | Caixin
    | Juejin
    | Csdn
    | Hellogithub
    | Github
    | DoubanGroup
    | Tieba
    | DoubanMovie
    | Starrail
    | Genshin
    | Lol

  /** How many list types there are. */
  const Count: nat := 33

  /** The identifier of each list type: the enum member's string value.
      No identifier is empty. */
  function Id(t: NewsType): (r: string)
    ensures |r| > 0
  {
    match t
    case Zhihu => "zhihu"
    case Weibo => "weibo"
    case Baidu => "baidu"
    case Douban => "douban"
    case Toutiao => "toutiao"
    case Bilibili => "bilibili"
    case Douyin => "douyin"
    case Kuaishou => "kuaishou"
    case Hupu => "hupu"
    case Weread => "weread"
    case Geekpark => "geekpark"
    case Guokr => "guokr"
    case NeteaseNews => "netease-news"
    case SinaNews => "sina-news"
    case Kr36 => "36kr"
    case Ithome => "ithome"
    case Thepaper => "thepaper"
    case QqNews => "qq-news"
    case Cls => "cls"
    case Jin10 => "jin10"
    case Wallstreet => "wallstreet"
    case Yicai => "yicai"
    case Caixin => "caixin"
    case Juejin => "juejin"
    case Csdn => "csdn"
    case Hellogithub => "hellogithub"
    case Github => "github"
    case DoubanGroup => "douban-group"
    case Tieba => "tieba"
    case DoubanMovie => "douban-movie"
    case Starrail => "starrail"
    case Genshin => "genshin"
    case Lol => "lol"
  }

  /** `newsTypeNameMap`: the display name of each list type. It is defined on
      every type, and no name is empty. */
  function DisplayName(t: NewsType): (r: string)
    ensures |r| > 0
  {
    match t
    case Zhihu => "知乎"
    case Weibo => "微博"
    case Baidu => "百度"
    case Douban => "豆瓣"
    case Toutiao => "头条"
    case Bilibili => "哔哩哔哩"
    case Douyin => "抖音"
    case Kuaishou => "快手"
    case Hupu => "虎扑"
    case Weread => "微信读书"
    case Geekpark => "极客公园"
    case Guokr => "果壳"
    case NeteaseNews => "网易新闻"
    case SinaNews => "新浪新闻"
    case Kr36 => "36氪"
    case Ithome => "IT之家"
    case Thepaper => "澎湃新闻"
    case QqNews => "QQ新闻"
    case Cls => "财联社"
    case Jin10 => "金十数据"
    case Wallstreet => "华尔街见闻"
    case Yicai => "第一财经"
    case Caixin => "财新网"
    case Juejin => "掘金"
    case Csdn => "CSDN"
    case Hellogithub => "HelloGitHub"
    case Github => "GitHub 趋势"
    case DoubanGroup => "豆瓣小组"
    case Tieba => "百度贴吧"
    case DoubanMovie => "豆瓣电影"
    case Starrail => "崩坏：星穹铁道"
    case Genshin => "原神"
    case Lol => "英雄联盟"
  }

  /** The list types whose identifiers start with `c`. */
  function SameInitial(c: char): (r: seq<NewsType>)
  {
    match c
    case 'z' => [Zhihu]
    case 'w' => [Weibo, Weread, Wallstreet]
    case 'b' => [Baidu, Bilibili]
    case 'd' => [Douban, Douyin, DoubanGroup, DoubanMovie]
    case 't' => [Toutiao, Thepaper, Tieba]
    case 'k' => [Kuaishou]
    case 'h' => [Hupu, Hellogithub]
    case 'g' => [Geekpark, Guokr, Github, Genshin]
    case 'n' => [NeteaseNews]
    case 's' => [SinaNews, Starrail]
    case '3' => [Kr36]
    case 'i' => [Ithome]
    case 'q' => [QqNews]
    case 'c' => [Cls, Caixin, Csdn]
    case 'j' => [Jin10, Juejin]
    case 'y' => [Yicai]
    case 'l' => [Lol]
    case _ => []
  }

  /** The first of `candidates` whose identifier is `s`. */
  function {:induction false} Find(s: string, candidates: seq<NewsType>): (r: Option<NewsType>)
    ensures r.Some? ==> r.value in candidates && Id(r.value) == s
    ensures r.None? ==> forall t :: t in candidates ==> Id(t) != s
  {
    if |candidates| == 0 then None
    else if Id(candidates[0]) == s then Some(candidates[0])
    else Find(s, candidates[1..])
  }

  /** The list type an identifier names, if any: the enum member with that
      string value. The lookup goes through the members that share the
      string's first character only to keep the proofs small: the result is
      still the one member whose identifier equals `s`, or none. */
  function ParseNewsType(s: string): (r: Option<NewsType>)
    ensures r.Some? ==> Id(r.value) == s
  {
    if |s| == 0 then None else Find(s, SameInitial(s[0]))
  }

  /** The position of each member in the enum's declaration. */
  function Ordinal(t: NewsType): (i: nat)
    ensures i < Count
  {
    match t
    case Zhihu => 0
    case Weibo => 1
    case Baidu => 2
    case Douban => 3
    case Toutiao => 4
    case Bilibili => 5
    case Douyin => 6
    case Kuaishou => 7
    case Hupu => 8
    case Weread => 9
    case Geekpark => 10
    case Guokr => 11
    case NeteaseNews => 12
    case SinaNews => 13
    case Kr36 => 14
    case Ithome => 15
    case Thepaper => 16
    case QqNews => 17
    case Cls => 18
    case Jin10 => 19
    case Wallstreet => 20
    case Yicai => 21
    case Caixin => 22
    case Juejin => 23
    case Csdn => 24
    case Hellogithub => 25
    case Github => 26
    case DoubanGroup => 27
    case Tieba => 28
    case DoubanMovie => 29
    case Starrail => 30
    case Genshin => 31
    case Lol => 32
  }

  /** The member declared at position `i`. */
  function FromOrdinal(i: nat): NewsType
    requires i < Count
  {
    if i == 0 then Zhihu
    else if i == 1 then Weibo
    else if i == 2 then Baidu
    else if i == 3 then Douban
    else if i == 4 then Toutiao
    else if i == 5 then Bilibili
    else if i == 6 then Douyin
    else if i == 7 then Kuaishou
    else if i == 8 then Hupu
    else if i == 9 then Weread
    else if i == 10 then Geekpark
    else if i == 11 then Guokr
    else if i == 12 then NeteaseNews
    else if i == 13 then SinaNews
    else if i == 14 then Kr36
    else if i == 15 then Ithome
    else if i == 16 then Thepaper
    else if i == 17 then QqNews
    else if i == 18 then Cls
    else if i == 19 then Jin10
    else if i == 20 then Wallstreet
    else if i == 21 then Yicai
    else if i == 22 then Caixin
    else if i == 23 then Juejin
    else if i == 24 then Csdn
    else if i == 25 then Hellogithub
    else if i == 26 then Github
    else if i == 27 then DoubanGroup
    else if i == 28 then Tieba
    else if i == 29 then DoubanMovie
    else if i == 30 then Starrail
    else if i == 31 then Genshin
    else Lol
  }

  /** `Object.values(NewsTypeEnum)`: the identifiers in declaration order,
      which the `type` argument is validated against. */
  function NewsTypeValues(): seq<string>
  {
    seq(Count, i requires 0 <= i < Count => Id(FromOrdinal(i)))
  }

  /** Each member is the one declared at its own position. */
  lemma FromOrdinalOrdinal(t: NewsType)
    ensures FromOrdinal(Ordinal(t)) == t
  {
  }

  /** Each position holds a member declared there. */
  lemma OrdinalFromOrdinal(i: nat)
    requires i < Count
    ensures Ordinal(FromOrdinal(i)) == i
  {
  }

  /** No two of `ts` share an identifier. */
  ghost predicate DistinctIds(ts: seq<NewsType>)
  {
    forall i, j :: 0 <= i < j < |ts| ==> Id(ts[i]) != Id(ts[j])
  }

  /** Among candidates with distinct identifiers, the search finds each one
      by its identifier. */
  lemma {:induction false} FindId(t: NewsType, candidates: seq<NewsType>)
    requires t in candidates
    requires DistinctIds(candidates)
    ensures Find(Id(t), candidates) == Some(t)
  {
    if candidates[0] != t {
      assert Id(candidates[0]) != Id(t) by {
        var k :| 0 <= k < |candidates| && candidates[k] == t;
      }
      assert DistinctIds(candidates[1..]) by {
        forall i, j | 0 <= i < j < |candidates| - 1
          ensures Id(candidates[1..][i]) != Id(candidates[1..][j])
        {
          assert candidates[1..][i] == candidates[i + 1];
          assert candidates[1..][j] == candidates[j + 1];
        }
      }
      FindId(t, candidates[1..]);
    }
  }

  /** Each list type is among those sharing its initial. */
  lemma InSameInitial(t: NewsType)
    ensures |Id(t)| > 0 && t in SameInitial(Id(t)[0])
  {
  }

  /** The list types sharing an initial have distinct identifiers. */
  lemma SameInitialDistinct(c: char)
    ensures DistinctIds(SameInitial(c))
  {
    if c == 'w' || c == 'b' || c == 'd' || c == 't' {
      WbdtDistinct(c);
    } else if c == 'h' || c == 'g' || c == 's' || c == 'c' || c == 'j' {
      HgscjDistinct(c);
    }
  }

  /** Distinct identifiers among the list types starting with w, b, d or t. */
  lemma WbdtDistinct(c: char)
    requires c == 'w' || c == 'b' || c == 'd' || c == 't'
    ensures DistinctIds(SameInitial(c))
  {
  }

  /** Distinct identifiers among the list types starting with h, g, s, c or j. */
  lemma HgscjDistinct(c: char)
    requires c == 'h' || c == 'g' || c == 's' || c == 'c' || c == 'j'
    ensures DistinctIds(SameInitial(c))
  {
  }

  /** Every identifier parses back to its own list type. */
  lemma ParseId(t: NewsType)
    ensures ParseNewsType(Id(t)) == Some(t)
  {
    InSameInitial(t);
    SameInitialDistinct(Id(t)[0]);
    FindId(t, SameInitial(Id(t)[0]));
  }

  /** No two list types share an identifier. */
  lemma IdInjective(t: NewsType, u: NewsType)
    ensures Id(t) == Id(u) ==> t == u
  {
    ParseId(t);
    ParseId(u);
  }

  /** The validated values are 33 distinct identifiers, and a string is among
      them exactly when it names a list type. */
  lemma NewsTypeValuesExact(s: string)
    ensures |NewsTypeValues()| == Count
    ensures forall i, j :: 0 <= i < j < Count ==> NewsTypeValues()[i] != NewsTypeValues()[j]
    ensures s in NewsTypeValues() <==> ParseNewsType(s).Some?
  {
    var values := NewsTypeValues();
    forall i, j | 0 <= i < j < Count
      ensures values[i] != values[j]
    {
      IdInjective(FromOrdinal(i), FromOrdinal(j));
      OrdinalFromOrdinal(i);
      OrdinalFromOrdinal(j);
    }
    if ParseNewsType(s).Some? {
      var t := ParseNewsType(s).value;
      FromOrdinalOrdinal(t);
      assert values[Ordinal(t)] == s;
    }
    if s in values {
      var i :| 0 <= i < Count && values[i] == s;
      ParseId(FromOrdinal(i));
    }
  }

  /** The heading's `newsTypeNameMap[type] || type`: the fallback to the raw
      identifier never fires, because no display name is empty. */
  function Label(t: NewsType): (r: string)
    ensures r == DisplayName(t)
  {
    if DisplayName(t) != "" then DisplayName(t) else Id(t)
  }

  const UrlPrefix: string := "http://localhost:6688/"
  const UrlSuffix: string := "?cache=true"

  /** The request URL: the identifier as the path, with the cache flag. */
  function RequestUrl(t: NewsType): (r: string)
    ensures |r| == |UrlPrefix| + |Id(t)| + |UrlSuffix|
    ensures r[..|UrlPrefix|] == UrlPrefix
    ensures r[|UrlPrefix|..|r| - |UrlSuffix|] == Id(t)
    ensures r[|r| - |UrlSuffix|..] == UrlSuffix
  {
    UrlPrefix + Id(t) + UrlSuffix
  }

  /** No identifier holds a `?`, so in a URL it cannot start a query. */
  lemma IdNoQuery(t: NewsType)
    ensures '?' !in Id(t)
  {
  }

  /** The URL's query is only the cache flag: splitting at `?` gives the
      path, ending in the identifier, and `cache=true`. */
  lemma RequestUrlQuery(t: NewsType)
    ensures Split(RequestUrl(t), '?') == [UrlPrefix + Id(t), "cache=true"]
  {
    PathNoQuery(t);
    assert UrlSuffix == ['?'] + "cache=true" && '?' !in "cache=true";
    assert RequestUrl(t) == (UrlPrefix + Id(t)) + ['?'] + "cache=true";
    SplitOnce(UrlPrefix + Id(t), '?', "cache=true");
  }

  /** The URL's path, up to the identifier, holds no `?`. */
  lemma PathNoQuery(t: NewsType)
    ensures '?' !in UrlPrefix + Id(t)
  {
    IdNoQuery(t);
    assert '?' !in UrlPrefix;
  }

  /** Different list types are fetched from different URLs. */
  lemma RequestUrlInjective(t: NewsType, u: NewsType)
    ensures RequestUrl(t) == RequestUrl(u) ==> t == u
  {
    IdInjective(t, u);
  }

  /** The `hot` field of a list entry: a number, a text, or undefined. */
  datatype Hot = HotNumber(n: real) | HotString(s: string) | HotUndefined

  /** The fields of a list entry that the tool renders. */
  datatype ListItem = ListItem(title: string, hot: Hot, url: string, desc: Option<string>)

  /** Template interpolation of `item.hot`: a number is formatted, a
      text is inserted as it is, and a missing value reads "undefined". */
  function HotText(fmt: NumFormat, h: Hot): (r: string)
    ensures h.HotNumber? ==> r == fmt(h.n)
    ensures h.HotString? ==> r == h.s
    ensures h.HotUndefined? ==> r == "undefined"
  {
    match h
    case HotNumber(n) => fmt(n)
    case HotString(s) => s
    case HotUndefined => "undefined"
  }

  /** Template interpolation of `item.desc`: the text when present,
      "undefined" when the field is missing. */
  function DescText(d: Option<string>): (r: string)
    ensures d.Some? ==> r == d.value
    ensures d.None? ==> r == "undefined"
  {
    match d
    case Some(s) => s
    case None => "undefined"
  }

  /** The text one list entry renders to: four labelled lines, title, hot
      value, link and description, and an empty line after them. */
  function ItemText(fmt: NumFormat, item: ListItem): (r: string)
    ensures |r| >= 2 && r[|r| - 2..] == "\n\n"
  {
    "标题📖：" + item.title + " \n热度🔥：" + HotText(fmt, item.hot)
    + " \n链接🔗：" + item.url + " \n描述📖： " + DescText(item.desc) + "\n\n"
  }

  /** The lines of one entry's text. */
  function ItemLines(fmt: NumFormat, item: ListItem): seq<string>
  {
    ["标题📖：" + item.title + " ", "热度🔥：" + HotText(fmt, item.hot) + " ",
     "链接🔗：" + item.url + " ", "描述📖： " + DescText(item.desc), "", ""]
  }

  /** An entry's text is its lines, each followed by a line break but the
      last (the two empty lines make the text end in "\n\n"). */
  lemma ItemTextConcat(fmt: NumFormat, item: ListItem)
    ensures var lines := ItemLines(fmt, item);
      ItemText(fmt, item) ==
      lines[0] + "\n" + lines[1] + "\n" + lines[2] + "\n" + lines[3] + "\n" + lines[4] + "\n" + lines[5]
  {
    var lines := ItemLines(fmt, item);
    assert " \n热度🔥：" == " " + "\n" + "热度🔥：";
    assert " \n链接🔗：" == " " + "\n" + "链接🔗：";
    assert " \n描述📖： " == " " + "\n" + "描述📖： ";
    var p1 := "标题📖：" + item.title + " \n热度🔥：";
    assert p1 == lines[0] + "\n" + "热度🔥：";
    var p2 := p1 + HotText(fmt, item.hot) + " \n链接🔗：";
    assert p2 == lines[0] + "\n" + lines[1] + "\n" + "链接🔗：";
    var p3 := p2 + item.url + " \n描述📖： ";
    assert p3 == lines[0] + "\n" + lines[1] + "\n" + lines[2] + "\n" + "描述📖： ";
    assert ItemText(fmt, item) == p3 + DescText(item.desc) + "\n\n";
  }

  /** An entry's text is its lines joined by line breaks. */
  lemma ItemTextJoin(fmt: NumFormat, item: ListItem)
    ensures ItemText(fmt, item) == Join(ItemLines(fmt, item), "\n")
  {
    ItemTextConcat(fmt, item);
    JoinSix(ItemLines(fmt, item), "\n");
  }

  /** When no field holds a line break, an entry's text splits at its line
      breaks into exactly the four labelled lines, each holding its field
      whole, followed by two empty pieces. */
  lemma ItemTextLines(fmt: NumFormat, item: ListItem)
    requires '\n' !in item.title && '\n' !in HotText(fmt, item.hot)
    requires '\n' !in item.url && '\n' !in DescText(item.desc)
    ensures Split(ItemText(fmt, item), '\n') == ItemLines(fmt, item)
  {
    var lines := ItemLines(fmt, item);
    ItemTextJoin(fmt, item);
    forall i | 0 <= i < |lines|
      ensures '\n' !in lines[i]
    {
    }
    SplitJoin(lines, '\n');
  }

  /** `data.map(...)`: one rendered text per entry, in order. */
  function ItemTexts(fmt: NumFormat, items: seq<ListItem>): (r: seq<string>)
    ensures |r| == |items|
    ensures forall i :: 0 <= i < |items| ==> r[i] == ItemText(fmt, items[i])
  {
    seq(|items|, i requires 0 <= i < |items| => ItemText(fmt, items[i]))
  }

  /** `data.map(...).join("\n")`. */
  function RenderList(fmt: NumFormat, items: seq<ListItem>): (r: string)
    ensures |items| == 0 ==> r == ""
    ensures |items| == 1 ==> r == ItemText(fmt, items[0])
  {
    Join(ItemTexts(fmt, items), "\n")
  }

  lemma ItemTextsAppend(fmt: NumFormat, xs: seq<ListItem>, ys: seq<ListItem>)
    ensures ItemTexts(fmt, xs + ys) == ItemTexts(fmt, xs) + ItemTexts(fmt, ys)
  {
  }

  /** Rendering two lists one after the other is rendering each, with one
      line break between them. */
  lemma RenderListAppend(fmt: NumFormat, xs: seq<ListItem>, ys: seq<ListItem>)
    requires |xs| > 0 && |ys| > 0
    ensures RenderList(fmt, xs + ys) == RenderList(fmt, xs) + "\n" + RenderList(fmt, ys)
  {
    ItemTextsAppend(fmt, xs, ys);
    JoinAppend(ItemTexts(fmt, xs), ItemTexts(fmt, ys), "\n");
  }

  /** Entry `k` is rendered once, whole, in its place: after the rendering of
      the entries before it and a line break, and before a line break and the
      rendering of the entries after it. */
  lemma RenderListAt(fmt: NumFormat, items: seq<ListItem>, k: nat)
    requires k < |items|
    ensures RenderList(fmt, items) ==
      (if k == 0 then "" else RenderList(fmt, items[..k]) + "\n")
      + ItemText(fmt, items[k])
      + (if k == |items| - 1 then "" else "\n" + RenderList(fmt, items[k + 1..]))
  {
    var texts := ItemTexts(fmt, items);
    JoinAt(texts, "\n", k);
    assert texts[..k] == ItemTexts(fmt, items[..k]);
    assert texts[k + 1..] == ItemTexts(fmt, items[k + 1..]);
  }

  const TypePrefix: string := "榜单类型: "
  const DataPrefix: string := "榜单数据:\n\n"

  /** The message of the catch block: an axios error reports the response
      body's `status` when that is truthy and the error's message otherwise;
      anything else reports under the "weather" wording the service uses. */
  function DailyHotErrorText(f: Thrown): (r: string)
    ensures f.AxiosError? && f.response.Some? && Truthy(f.response.value.bodyStatus) ==>
      r == "Error fetching daily news data: " + f.response.value.bodyStatus.value
    ensures f.AxiosError? && !(f.response.Some? && Truthy(f.response.value.bodyStatus)) ==>
      r == "Error fetching daily news data: " + f.message
    ensures f.OtherError? ==> r == "Error fetching weather data: " + ErrorMessage(f)
  {
    match f
    case AxiosError(response, message) =>
      var status := if response.Some? then response.value.bodyStatus else None;
      "Error fetching daily news data: "
      + (if Truthy(status) then status.value else message)
    case OtherError(_) =>
      "Error fetching weather data: " + ErrorMessage(f)
  }

  /** The `get_daily_hot` handler. `upstream` stands for the aggregation
      service: it answers the one GET request the handler sends. */
  function GetDailyHot(fmt: NumFormat, t: NewsType, upstream: string -> Outcome<seq<ListItem>>)
    : (r: Reply)
    ensures r.requested == Some(RequestUrl(t))
    ensures upstream(RequestUrl(t)).Ok? ==>
      !r.envelope.isError
      && Texts(r.envelope) ==
         [TypePrefix + DisplayName(t), DataPrefix + RenderList(fmt, upstream(RequestUrl(t)).data)]
    ensures upstream(RequestUrl(t)).Err? ==>
      r.envelope == Failure(DailyHotErrorText(upstream(RequestUrl(t)).thrown))
  {
    var url := RequestUrl(t);
    match upstream(url)
    case Ok(data) =>
      Reply(Some(url), Success([TypePrefix + Label(t), DataPrefix + RenderList(fmt, data)]))
    case Err(thrown) =>
      Reply(Some(url), Failure(DailyHotErrorText(thrown)))
  }
}
