/** The category forest of the admin category table and the lookup of a
    row's parent category (`findParentCategory` and the parent column). */
module CategoryForest {
  import opened Wrappers
  import opened Text

  /** A category as the admin API returns it. An absent `children` array is
      modelled as the empty sequence: every code path treats the two alike. */
  datatype Category = Category(
    id: string,
    name: string,
    slug: string,
    description: Option<string>,
    parentId: Option<string>,
    children: seq<Category>)

  /** The forest flattened in preorder: each root, then its subtree, then the
      later roots. This is the reference order of the search. */
  function Preorder(forest: seq<Category>): seq<Category> {
    if |forest| == 0 then []
    else [forest[0]] + Preorder(forest[0].children) + Preorder(forest[1..])
  }

  /** Index `i` holds the first category of `cs` whose id is `p`. */
  predicate IsFirstWithId(cs: seq<Category>, p: string, i: int) {
    && 0 <= i < |cs|
    && cs[i].id == p
    && forall j :: 0 <= j < i ==> cs[j].id != p
  }

  /** The first category of a flat sequence whose id is `p`. */
  function FirstWithId(cs: seq<Category>, p: string): (r: Option<Category>)
    ensures r.Some? ==> exists i :: IsFirstWithId(cs, p, i) && cs[i] == r.value
    ensures r.None? <==> forall c :: c in cs ==> c.id != p
  {
    if |cs| == 0 then None
    else if cs[0].id == p then Some(cs[0])
    else
      var r := FirstWithId(cs[1..], p);
      if r.Some? then
        var i :| IsFirstWithId(cs[1..], p, i) && cs[1..][i] == r.value;
        assert IsFirstWithId(cs, p, i + 1);
        r
      else
        assert forall c :: c in cs ==> c == cs[0] || c in cs[1..];
        r
  }

  /** The depth-first walk of `findParentCategory` once `parentId` is known
      to be truthy: a root is tested first, then its children when it has
      any, then the later roots. */
  function Search(forest: seq<Category>, p: string): Option<Category> {
    if |forest| == 0 then None
    else if forest[0].id == p then Some(forest[0])
    else
      var found := if |forest[0].children| > 0 then Search(forest[0].children, p) else None;
      if found.Some? then found else Search(forest[1..], p)
  }

  /** `findParentCategory(categories, parentId)`: no parent for an absent or
      empty id, otherwise the first category with that id in preorder. */
  function FindParentCategory(categories: seq<Category>, parentId: Option<string>): (r: Option<Category>)
    ensures !Truthy(parentId) ==> r == None
    ensures Truthy(parentId) ==> r == FirstWithId(Preorder(categories), parentId.value)
    ensures r.Some? ==> r.value.id == parentId.value && r.value in Preorder(categories)
    ensures r.None? <==> !Truthy(parentId) || forall c :: c in Preorder(categories) ==> c.id != parentId.value
  {
    if !Truthy(parentId) then None
    else
      SearchIsFirstInPreorder(categories, parentId.value);
      Search(categories, parentId.value)
  }

  /** Searching a concatenation of flat sequences finds the first part's
      match before looking at the second part. */
  lemma {:induction false} FirstWithIdAppend(a: seq<Category>, b: seq<Category>, p: string)
    ensures FirstWithId(a + b, p) == if FirstWithId(a, p).Some? then FirstWithId(a, p) else FirstWithId(b, p)
  {
    if |a| == 0 {
      assert a + b == b;
    } else {
      assert (a + b)[0] == a[0];
      assert (a + b)[1..] == a[1..] + b;
      FirstWithIdAppend(a[1..], b, p);
    }
  }

  /** The walk returns exactly the first match of the preorder listing. */
  lemma {:induction false} SearchIsFirstInPreorder(forest: seq<Category>, p: string)
    ensures Search(forest, p) == FirstWithId(Preorder(forest), p)
  {
    if |forest| > 0 {
      var root := forest[0];
      var below := Preorder(root.children) + Preorder(forest[1..]);
      assert Preorder(forest) == [root] + below;
      if root.id != p {
        assert ([root] + below)[1..] == below;
        SearchIsFirstInPreorder(root.children, p);
        SearchIsFirstInPreorder(forest[1..], p);
        FirstWithIdAppend(Preorder(root.children), Preorder(forest[1..]), p);
      }
    }
  }

  /** The preorder listing of a concatenation of forests. */
  lemma {:induction false} PreorderAppend(a: seq<Category>, b: seq<Category>)
    ensures Preorder(a + b) == Preorder(a) + Preorder(b)
  {
    if |a| == 0 {
      assert a + b == b;
    } else {
      assert (a + b)[0] == a[0];
      assert (a + b)[1..] == a[1..] + b;
      PreorderAppend(a[1..], b);
    }
  }

  /** Earlier roots and their whole subtrees are searched before later roots. */
  lemma SearchAppend(a: seq<Category>, b: seq<Category>, p: string)
    ensures Search(a + b, p) == if Search(a, p).Some? then Search(a, p) else Search(b, p)
  {
    SearchIsFirstInPreorder(a + b, p);
    SearchIsFirstInPreorder(a, p);
    SearchIsFirstInPreorder(b, p);
    PreorderAppend(a, b);
    FirstWithIdAppend(Preorder(a), Preorder(b), p);
  }

  /** The same walk without the `children.length > 0` test. */
  function SearchUnguarded(forest: seq<Category>, p: string): Option<Category> {
    if |forest| == 0 then None
    else if forest[0].id == p then Some(forest[0])
    else
      var found := SearchUnguarded(forest[0].children, p);
      if found.Some? then found else SearchUnguarded(forest[1..], p)
  }

  /** Skipping the recursion for a childless category does not change the
      result. */
  lemma {:induction false} GuardIsRedundant(forest: seq<Category>, p: string)
    ensures SearchUnguarded(forest, p) == Search(forest, p)
  {
    if |forest| > 0 && forest[0].id != p {
      GuardIsRedundant(forest[0].children, p);
      GuardIsRedundant(forest[1..], p);
    }
  }

  /** A child is found below its root, a missing id and an absent id find
      nothing. */
  lemma NestedLookupExample()
    ensures var b := Category("B", "B", "b", None, Some("A"), []);
            var a := Category("A", "A", "a", None, None, [b]);
            && FindParentCategory([a], Some("B")) == Some(b)
            && FindParentCategory([a], Some("Z")) == None
            && FindParentCategory([a], None) == None
  {
  }

  /** What the parent column of the category table shows. */
  datatype ParentCell = NoParent | ParentBadge(name: string) | UnknownParent

  /** The parent-column cell of `row`, looked up over the whole
      `categories` collection. */
  function ParentCellFor(categories: seq<Category>, row: Category): (cell: ParentCell)
    ensures cell == NoParent <==> !Truthy(row.parentId)
    ensures cell.ParentBadge? ==>
      exists i :: IsFirstWithId(Preorder(categories), row.parentId.value, i)
               && Preorder(categories)[i].name == cell.name
    ensures cell == UnknownParent <==>
      Truthy(row.parentId) && forall c :: c in Preorder(categories) ==> c.id != row.parentId.value
  {
    if !Truthy(row.parentId) then NoParent
    else
      match FindParentCategory(categories, row.parentId)
      case Some(parent) => ParentBadge(parent.name)
      case None => UnknownParent
  }
}
