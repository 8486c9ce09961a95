/**
  The mentor directory: a fixed list of mentors and a row of category
  buttons; "All" shows the whole list, any other category shows the mentors
  of exactly that category, in list order.
 */
module MentorsPage {

  /** A mentor card; the rating is kept in tenths (4.9 is 49) and the photo URL is not modelled. */
  datatype Mentor = Mentor(
    name: string,
    role: string,
    specialty: string,
    ratingTenths: nat,
    students: nat,
    sessions: nat,
    location: string,
    category: string)

  /** The page's mentor list. */
  const Mentors: seq<Mentor> := [
    Mentor("Dr. Priya Sharma", "IIT Delhi Graduate", "AI & Machine Learning", 49, 150, 320, "Mumbai, India", "Technology"),
    Mentor("Arjun Mehta", "Google Senior Engineer", "Full Stack Development", 50, 200, 450, "Bangalore, India", "Technology"),
    Mentor("Meera Kapoor", "Stanford MBA", "Entrepreneurship", 48, 120, 280, "Delhi, India", "Business")
  ]

  /** The filter buttons, in display order. */
  const Categories: seq<string> := ["All", "Technology", "Business", "Creative", "Sports", "Academic"]

  /** `useState('All')` */
  const InitialCategory: string := "All"

  /** `ms.filter(m => m.category === c)` */
  function FilterByCategory(ms: seq<Mentor>, c: string): (r: seq<Mentor>)
    ensures |r| <= |ms|
    ensures forall i :: 0 <= i < |r| ==> r[i].category == c
    ensures forall m :: multiset(r)[m] == if m.category == c then multiset(ms)[m] else 0
    decreases |ms|
  {
    if |ms| == 0 then []
    else
      assert ms == [ms[0]] + ms[1..];
      var rest := FilterByCategory(ms[1..], c);
      if ms[0].category == c then [ms[0]] + rest else rest
  }

  /** `filteredMentors` */
  function FilteredMentors(ms: seq<Mentor>, selected: string): (r: seq<Mentor>)
    ensures selected == "All" ==> r == ms
    ensures selected != "All" ==> forall i :: 0 <= i < |r| ==> r[i].category == selected
    ensures selected != "All" ==> forall m :: m in ms && m.category == selected ==> m in r
    ensures selected != "All" ==>
      forall m :: multiset(r)[m] == if m.category == selected then multiset(ms)[m] else 0
    ensures |r| <= |ms|
  {
    if selected == "All" then ms
    else
      var r := FilterByCategory(ms, selected);
      assert forall m :: m in ms && m.category == selected ==> multiset(r)[m] > 0;
      r
  }

  /** The page opens on "All", which lists every mentor. */
  lemma InitialShowsAll()
    ensures FilteredMentors(Mentors, InitialCategory) == Mentors
  {
  }

  /** Filtering distributes over concatenation, so matches keep their original order. */
  lemma {:induction false} FilterAppend(a: seq<Mentor>, b: seq<Mentor>, c: string)
    ensures FilterByCategory(a + b, c) == FilterByCategory(a, c) + FilterByCategory(b, c)
    decreases |a|
  {
    if |a| == 0 {
      assert a + b == b;
    } else {
      assert (a + b)[0] == a[0] && (a + b)[1..] == a[1..] + b;
      FilterAppend(a[1..], b, c);
    }
  }

  /** A list whose mentors all match is returned unchanged. */
  lemma {:induction false} FilterAllMatch(ms: seq<Mentor>, c: string)
    requires forall i :: 0 <= i < |ms| ==> ms[i].category == c
    ensures FilterByCategory(ms, c) == ms
    decreases |ms|
  {
    if |ms| > 0 {
      FilterAllMatch(ms[1..], c);
      assert ms == [ms[0]] + ms[1..];
    }
  }

  /** Filtering twice by the same category is filtering once. */
  lemma FilterIdempotent(ms: seq<Mentor>, c: string)
    ensures FilterByCategory(FilterByCategory(ms, c), c) == FilterByCategory(ms, c)
  {
  }

  /** A category no mentor carries yields the empty list. */
  lemma NoMatchIsEmpty(ms: seq<Mentor>, c: string)
    requires forall i :: 0 <= i < |ms| ==> ms[i].category != c
    ensures FilterByCategory(ms, c) == []
  {
  }

  /** The page's list: two Technology mentors followed by one Business mentor. */
  lemma MentorsShape()
    ensures |Mentors| == 3
    ensures forall i :: 0 <= i < 2 ==> Mentors[i].category == "Technology"
    ensures Mentors[2].category == "Business"
  {
  }

  /** On the page's list, Creative, Sports and Academic (and any other unused category) show nobody. */
  lemma UnusedCategoriesEmpty(c: string)
    requires c != "All" && c != "Technology" && c != "Business"
    ensures FilteredMentors(Mentors, c) == []
  {
  }

  /** On the page's list, Technology shows the first two mentors and Business the third. */
  lemma UsedCategories()
    ensures FilteredMentors(Mentors, "Technology") == Mentors[..2]
    ensures FilteredMentors(Mentors, "Business") == Mentors[2..]
  {
  }
}
