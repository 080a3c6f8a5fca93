/** The home page's navigation menu: the two special categories picked out
    by name, the ordinary categories that remain, and the sub-menus of the
    special categories with their fallbacks. */
module NavigationMenu {
  import opened Wrappers
  import opened Text
  import CF = CategoryForest

  type Category = CF.Category

  /** The name fragments that pick out the special categories. */
  const LanguageNeedle := "ngoại ngữ"
  const ExamNeedle := "ôn thi"

  /** `cat.name.toLowerCase().includes(needle)`. */
  predicate NameMatches(c: Category, needle: string) {
    Contains(ToLower(c.name), needle)
  }

  /** Index `i` holds the first category whose name matches `needle`. */
  predicate IsFirstMatch(cats: seq<Category>, needle: string, i: int) {
    && 0 <= i < |cats|
    && NameMatches(cats[i], needle)
    && forall j :: 0 <= j < i ==> !NameMatches(cats[j], needle)
  }

  /** `categories.find(...)` with the name test above. */
  function FindFirst(cats: seq<Category>, needle: string): (r: Option<Category>)
    ensures r.Some? ==> exists i :: IsFirstMatch(cats, needle, i) && cats[i] == r.value
    ensures r.None? <==> forall i :: 0 <= i < |cats| ==> !NameMatches(cats[i], needle)
  {
    if |cats| == 0 then None
    else if NameMatches(cats[0], needle) then Some(cats[0])
    else
      var r := FindFirst(cats[1..], needle);
      if r.Some? then
        var i :| IsFirstMatch(cats[1..], needle, i) && cats[1..][i] == r.value;
        assert IsFirstMatch(cats, needle, i + 1);
        r
      else
        assert forall i :: 1 <= i < |cats| ==> cats[i] == cats[1..][i - 1];
        r
  }

  /** The foreign-language and exam-preparation categories, each possibly
      absent. They may be the same category. */
  datatype Specials = Specials(language: Option<Category>, exam: Option<Category>)

  function SelectSpecials(cats: seq<Category>): Specials {
    Specials(FindFirst(cats, LanguageNeedle), FindFirst(cats, ExamNeedle))
  }

  /** `id` is the id of a special category that is present. */
  predicate IsSpecialId(sp: Specials, id: string) {
    || (sp.language.Some? && sp.language.value.id == id)
    || (sp.exam.Some? && sp.exam.value.id == id)
  }

  /** `categories.filter(...)`: the categories whose id is not that of a
      present special category, in their original order. */
  function WithoutSpecials(cats: seq<Category>, sp: Specials): (r: seq<Category>)
    ensures forall c :: c in r <==> c in cats && !IsSpecialId(sp, c.id)
    ensures |r| <= |cats|
  {
    if |cats| == 0 then []
    else
      var rest := WithoutSpecials(cats[1..], sp);
      assert forall c :: c in cats <==> c == cats[0] || c in cats[1..];
      if IsSpecialId(sp, cats[0].id) then rest else [cats[0]] + rest
  }

  /** `mainCategories`. */
  function MainCategories(cats: seq<Category>): seq<Category> {
    WithoutSpecials(cats, SelectSpecials(cats))
  }

  /** The filter keeps the input's order: filtering a concatenation is the
      concatenation of the filtered parts. */
  lemma {:induction false} WithoutSpecialsAppend(a: seq<Category>, b: seq<Category>, sp: Specials)
    ensures WithoutSpecials(a + b, sp) == WithoutSpecials(a, sp) + WithoutSpecials(b, sp)
  {
    if |a| == 0 {
      assert a + b == b;
    } else {
      assert (a + b)[0] == a[0];
      assert (a + b)[1..] == a[1..] + b;
      WithoutSpecialsAppend(a[1..], b, sp);
    }
  }

  /** No two categories share an id. */
  predicate UniqueIds(cats: seq<Category>) {
    forall i, j :: 0 <= i < j < |cats| ==> cats[i].id != cats[j].id
  }

  /** With unique ids every category is either an ordinary menu entry or
      one of the special categories, never both; the special categories come
      from the input. */
  lemma Partition(cats: seq<Category>, c: Category)
    requires UniqueIds(cats)
    requires c in cats
    ensures var sp := SelectSpecials(cats);
      (c in MainCategories(cats)) != (sp.language == Some(c) || sp.exam == Some(c))
    ensures var sp := SelectSpecials(cats);
      (sp.language.Some? ==> sp.language.value in cats) && (sp.exam.Some? ==> sp.exam.value in cats)
  {
  }

  /** Every link of the menu points to a category page. */
  const CategoryPrefix := "/category/"

  function Href(slug: string): (href: string)
    ensures CategoryPrefix <= href && href[|CategoryPrefix|..] == slug
  {
    CategoryPrefix + slug
  }

  /** The icon used when a language has none of its own. */
  const Globe := "🌐"

  /** `languageIcons`. */
  const LanguageIcons: map<string, string> := map[
    "Tài liệu tiếng anh" := "🇬🇧",
    "Tài liệu tiếng trung" := "🇨🇳",
    "Tài liệu tiếng nhật" := "🇯🇵",
    "Tài liệu tiếng hàn" := "🇰🇷",
    "Tài liệu tiếng pháp" := "🇫🇷",
    "Tài liệu tiếng đức" := "🇩🇪"]

  /** What `languageIcons[key]` yields. The table is a plain object, so
      besides its own entries it yields the values every object inherits:
      `constructor` is the `Object` function and `__proto__` is
      `Object.prototype`. The other inherited names all contain an
      upper-case letter, so no lower-cased name reaches them. */
  datatype Icon = Emoji(text: string) | InheritedFunction | InheritedObject

  /** `languageIcons[name.toLowerCase()] || "🌐"`: an emoji from the table,
      an inherited value (both are truthy), or the globe. */
  function IconFor(name: string): Icon {
    var key := ToLower(name);
    if key in LanguageIcons then Emoji(LanguageIcons[key])
    else if key == "constructor" then InheritedFunction
    else if key == "__proto__" then InheritedObject
    else Emoji(Globe)
  }

  /** Every key of the icon table starts with an upper-case "T", which a
      lower-cased name never does, so the table's own emoji are never used:
      the two inherited names yield inherited values and every other name
      gets the globe. */
  lemma IconLookup(name: string)
    ensures ToLower(name) == "constructor" ==> IconFor(name) == InheritedFunction
    ensures ToLower(name) == "__proto__" ==> IconFor(name) == InheritedObject
    ensures ToLower(name) != "constructor" && ToLower(name) != "__proto__" ==> IconFor(name) == Emoji(Globe)
    ensures IconFor(name) != Emoji(Globe) <==> ToLower(name) in {"constructor", "__proto__"}
  {
    assert forall k :: k in LanguageIcons ==> |k| > 0 && IsUpper(k[0]);
    var key := ToLower(name);
    if key in LanguageIcons {
      assert false;
    }
  }

  /** Which special sub-menu an entry belongs to. */
  datatype Kind = Language | Exam

  /** One entry of a sub-menu. */
  datatype MenuItem = MenuItem(title: string, href: string, icon: Option<Icon>, description: string)

  /** The entry for a child of a special category. */
  function ChildItem(kind: Kind, child: Category): (item: MenuItem)
    ensures item.title == child.name && item.href == Href(child.slug)
    ensures item.icon == if kind == Language then Some(IconFor(child.name)) else None
    ensures kind == Language && ToLower(child.name) != "constructor" && ToLower(child.name) != "__proto__"
      ==> item.icon == Some(Emoji(Globe))
    ensures Truthy(child.description) ==> item.description == child.description.value
    ensures !Truthy(child.description) ==>
      item.description == (if kind == Language then "Tài liệu học " else "Tài liệu ôn thi ") + child.name
  {
    match kind
    case Language =>
      IconLookup(child.name);
      MenuItem(child.name, Href(child.slug), Some(IconFor(child.name)),
               OrElse(child.description, "Tài liệu học " + child.name))
    case Exam =>
      MenuItem(child.name, Href(child.slug), None,
               OrElse(child.description, "Tài liệu ôn thi " + child.name))
  }

  /** The single entry shown for a special category without children: the
      category itself, with the globe for languages and no icon for exams. */
  function FallbackItem(kind: Kind, special: Category): (item: MenuItem)
    ensures item.title == special.name && item.href == Href(special.slug)
    ensures item.icon == if kind == Language then Some(Emoji(Globe)) else None
    ensures Truthy(special.description) ==> item.description == special.description.value
    ensures !Truthy(special.description) ==>
      item.description == if kind == Language then "Tài liệu học ngoại ngữ các loại" else "Tài liệu ôn thi các loại"
  {
    match kind
    case Language =>
      MenuItem(special.name, Href(special.slug), Some(Emoji(Globe)),
               OrElse(special.description, "Tài liệu học ngoại ngữ các loại"))
    case Exam =>
      MenuItem(special.name, Href(special.slug), None,
               OrElse(special.description, "Tài liệu ôn thi các loại"))
  }

  /** A special category's sub-menu: one entry per child in order, or the
      fallback entry for the category itself when it has no children. */
  function SubMenu(kind: Kind, special: Category): (items: seq<MenuItem>)
    ensures |special.children| == 0 ==> items == [FallbackItem(kind, special)]
    ensures |special.children| > 0 ==> |items| == |special.children|
    ensures forall i :: 0 <= i < |special.children| ==> items[i] == ChildItem(kind, special.children[i])
    ensures |items| > 0
    ensures forall i :: 0 <= i < |items| ==> CategoryPrefix <= items[i].href && items[i].description != ""
  {
    var mapped := seq(|special.children|, i requires 0 <= i < |special.children| => ChildItem(kind, special.children[i]));
    mapped + if |special.children| == 0 then [FallbackItem(kind, special)] else []
  }

  /** A top-level link for an ordinary category. */
  datatype TopLink = TopLink(name: string, href: string)

  /** The whole menu: the ordinary links, then each present special
      category with its sub-menu. */
  datatype Menu = Menu(main: seq<TopLink>, language: Option<(Category, seq<MenuItem>)>, exam: Option<(Category, seq<MenuItem>)>)

  function BuildMenu(cats: seq<Category>): (m: Menu)
    ensures |m.main| == |MainCategories(cats)|
    ensures forall i :: 0 <= i < |m.main| ==>
      m.main[i] == TopLink(MainCategories(cats)[i].name, Href(MainCategories(cats)[i].slug))
    ensures m.language.Some? <==> exists i :: 0 <= i < |cats| && NameMatches(cats[i], LanguageNeedle)
    ensures m.exam.Some? <==> exists i :: 0 <= i < |cats| && NameMatches(cats[i], ExamNeedle)
    ensures m.language.Some? ==> exists i :: IsFirstMatch(cats, LanguageNeedle, i) && cats[i] == m.language.value.0
    ensures m.exam.Some? ==> exists i :: IsFirstMatch(cats, ExamNeedle, i) && cats[i] == m.exam.value.0
    ensures m.language.Some? ==> m.language.value.1 == SubMenu(Language, m.language.value.0)
    ensures m.exam.Some? ==> m.exam.value.1 == SubMenu(Exam, m.exam.value.0)
  {
    var main := MainCategories(cats);
    var sp := SelectSpecials(cats);
    Menu(
      seq(|main|, i requires 0 <= i < |main| => TopLink(main[i].name, Href(main[i].slug))),
      if sp.language.Some? then Some((sp.language.value, SubMenu(Language, sp.language.value))) else None,
      if sp.exam.Some? then Some((sp.exam.value, SubMenu(Exam, sp.exam.value))) else None)
  }
}
