/**
 * The stored `author` of a history row: the sending user's company and
 * name, recomputed for every row whose user (or the user's company)
 * changes.
 */
module HistoryAuthor {
  import opened Wrappers
  import opened Records

  /** A user: their name and, when they have one, their company's name. */
  datatype User = User(name: string, company: Option<string>)

  const Separator: string := " - "

  /** The author shown for a row sent by `user`: "<company> - <name>", the bare name, or nothing. */
  function Author(user: Option<User>): (r: Option<string>)
    ensures r.None? <==> user.None?
    ensures user.Some? ==> |r.value| >= |user.value.name| && r.value[|r.value| - |user.value.name|..] == user.value.name
    ensures user.Some? && user.value.company.Some? ==>
              var c := user.value.company.value;
              |r.value| == |c| + |Separator| + |user.value.name|
              && r.value[..|c|] == c && r.value[|c|..|c| + |Separator|] == Separator
    ensures user.Some? && user.value.company.None? ==> r == Some(user.value.name)
  {
    match user
    case None => None
    case Some(u) =>
      match u.company
      case None => Some(u.name)
      case Some(c) => Some(c + Separator + u.name)
  }

  /**
   * Within one company the author tells the users apart: two users of the
   * same company with different names get different authors.
   */
  lemma {:induction false} AuthorSeparatesNames(company: Option<string>, a: string, b: string)
    requires a != b
    ensures Author(Some(User(a, company))) != Author(Some(User(b, company)))
  {
    if company.Some? {
      var c := company.value;
      var ra, rb := c + Separator + a, c + Separator + b;
      assert ra[|c| + |Separator|..] == a;
      assert rb[|c| + |Separator|..] == b;
    }
  }

  /**
   * The author does not always say who sent: a company whose name holds the
   * separator makes two different users read alike.
   */
  lemma AuthorCanBeAmbiguous()
    ensures Author(Some(User("B - C", Some("A")))) == Author(Some(User("C", Some("A - B"))))
  {
    assert "A" + Separator + "B - C" == "A - B" + Separator + "C";
  }

  /** The user behind a history row, looked up in the users table. */
  function RowUser(users: seq<User>, row: HistoryRecord): Option<User>
    requires row.user.Some? ==> row.user.value < |users|
  {
    if row.user.Some? then Some(users[row.user.value]) else None
  }

  /** `_compute_author`: one author per row, in order. */
  method ComputeAuthors(rows: seq<HistoryRecord>, users: seq<User>) returns (authors: seq<Option<string>>)
    requires forall i | 0 <= i < |rows| :: rows[i].user.Some? ==> rows[i].user.value < |users|
    ensures |authors| == |rows|
    ensures forall i | 0 <= i < |rows| :: authors[i] == Author(RowUser(users, rows[i]))
    ensures forall i | 0 <= i < |rows| :: authors[i].None? <==> rows[i].user.None?
  {
    authors := [];
    for i := 0 to |rows|
      invariant |authors| == i
      invariant forall k | 0 <= k < i :: authors[k] == Author(RowUser(users, rows[k]))
    {
      var row := rows[i];
      var author: Option<string>;
      if row.user.Some? && users[row.user.value].company.Some? {
        var u := users[row.user.value];
        author := Some(u.company.value + Separator + u.name);
      } else if row.user.Some? {
        author := Some(users[row.user.value].name);
      } else {
        author := None;
      }
      authors := authors + [author];
    }
  }
}
