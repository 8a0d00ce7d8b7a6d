/** The dashboard header's breadcrumb trail
    (src/components/layout/dashboard-header.tsx): getBreadcrumbs over the
    current pathname, and the choice of which crumbs render as links. */
module DashboardHeader {
  import opened Common

  /** routeLabels: display names of the known path segments. */
  const RouteLabels: map<string, string> := map[
    "" := "Dashboard",
    "projects" := "Projects",
    "notifications" := "Notifications",
    "settings" := "Settings",
    "profile" := "Profile",
    "preferences" := "Preferences",
    "webhooks" := "Webhooks",
    "tasks" := "Tasks",
    "list" := "List",
    "board" := "Board"]

  /** `routeLabels[segment] ?? segment`. */
  function RouteLabel(segment: string): (r: string)
    ensures segment in RouteLabels ==> r == RouteLabels[segment]
    ensures segment !in RouteLabels ==> r == segment
  {
    if segment in RouteLabels then RouteLabels[segment] else segment
  }

  /** The methods every object literal inherits from Object.prototype. A
      plain-object lookup such as `routeLabels[segment]` finds these too. */
  const PrototypeMethods: set<string> := {
    "constructor", "hasOwnProperty", "isPrototypeOf", "propertyIsEnumerable",
    "toLocaleString", "toString", "valueOf",
    "__defineGetter__", "__defineSetter__", "__lookupGetter__", "__lookupSetter__"}

  /** What `routeLabels[segment] ?? segment` evaluates to as a JavaScript
      value: a string, an inherited method, or, for "__proto__", the object
      Object.prototype. React renders a string as text, a function as
      nothing, and throws on a plain object. */
  datatype LabelValue = Text(s: string) | Method | PrototypeObject

  /** The label lookup as the source writes it, inherited members included.
      Off the twelve inherited names it agrees with RouteLabel. */
  function RouteLabelAsWritten(segment: string): (v: LabelValue)
    ensures v.PrototypeObject? <==> segment == "__proto__"
    ensures v.Method? <==> segment in PrototypeMethods
    ensures segment != "__proto__" && segment !in PrototypeMethods ==> v == Text(RouteLabel(segment))
  {
    if segment in RouteLabels then Text(RouteLabels[segment])
    else if segment == "__proto__" then PrototypeObject
    else if segment in PrototypeMethods then Method
    else Text(segment)
  }

  /** The pathname /projects/__proto__ has the segment "__proto__", whose
      label as written is Object.prototype, so rendering the header throws;
      /projects/constructor gets a function, an empty crumb. RouteLabel
      labels both segments with themselves. */
  lemma ProtoSegmentCrashes()
    ensures Segments("/projects/__proto__") == ["projects", "__proto__"]
    ensures RouteLabelAsWritten("__proto__") == PrototypeObject
    ensures RouteLabelAsWritten("constructor") == Method
    ensures RouteLabel("__proto__") == "__proto__" && RouteLabel("constructor") == "constructor"
  {
    TwoSegmentPath("projects", "__proto__");
    assert "/" + "projects" + "/" + "__proto__" == "/projects/__proto__";
  }

  /** `pathname.split("/").filter(Boolean)`. */
  function Segments(pathname: string): (r: seq<string>)
    ensures forall i :: 0 <= i < |r| ==> r[i] != "" && '/' !in r[i]
  {
    var r := NonEmpty(Split(pathname, '/'));
    assert forall i :: 0 <= i < |r| ==> '/' !in r[i] by {
      NonEmptyFrom(Split(pathname, '/'));
    }
    r
  }

  /** Every piece NonEmpty keeps is one of its inputs. */
  lemma {:induction false} NonEmptyFrom(parts: seq<string>)
    ensures forall i :: 0 <= i < |NonEmpty(parts)| ==> NonEmpty(parts)[i] in parts
  {
    if parts != [] {
      NonEmptyFrom(parts[1..]);
      forall i | 0 <= i < |NonEmpty(parts)| ensures NonEmpty(parts)[i] in parts {
        if parts[0] != "" && i == 0 {
        } else {
          var j := if parts[0] == "" then i else i - 1;
          assert NonEmpty(parts)[i] == NonEmpty(parts[1..])[j];
          assert NonEmpty(parts[1..])[j] in parts[1..];
        }
      }
    }
  }

  /** The path of the first |segments| segments: "/" before each one. */
  function Href(segments: seq<string>): string
  {
    if segments == [] then "" else Href(segments[..|segments| - 1]) + "/" + segments[|segments| - 1]
  }

  datatype Crumb = Crumb(text: string, href: string)

  /** getBreadcrumbs: one crumb per non-empty segment, in path order,
      labelled by routeLabels and linking to the path up to that segment. */
  method GetBreadcrumbs(pathname: string) returns (crumbs: seq<Crumb>)
    ensures var segments := Segments(pathname);
      |crumbs| == |segments|
      && forall i :: 0 <= i < |crumbs| ==>
           crumbs[i] == Crumb(RouteLabel(segments[i]), Href(segments[..i + 1]))
  {
    var segments := Segments(pathname);
    crumbs := [];
    var currentPath := "";
    for i := 0 to |segments|
      invariant |crumbs| == i
      invariant currentPath == Href(segments[..i])
      invariant forall j :: 0 <= j < i ==> crumbs[j] == Crumb(RouteLabel(segments[j]), Href(segments[..j + 1]))
    {
      var upTo := segments[..i + 1];
      assert upTo[..i] == segments[..i] && upTo[i] == segments[i];
      assert Href(upTo) == Href(segments[..i]) + "/" + segments[i];
      currentPath := currentPath + "/" + segments[i];
      var next := crumbs + [Crumb(RouteLabel(segments[i]), currentPath)];
      forall j | 0 <= j < i + 1
        ensures next[j] == Crumb(RouteLabel(segments[j]), Href(segments[..j + 1]))
      {
        if j < i {
          assert next[j] == crumbs[j];
        }
      }
      crumbs := next;
    }
  }

  /** Splitting at a slash: the segments of the two sides, in order. */
  lemma SegmentsAtSlash(x: string, y: string)
    ensures Segments(x + "/" + y) == Segments(x) + Segments(y)
  {
    assert x + "/" + y == x + ['/'] + y;
    SplitAtSeparator(x, '/', y);
    NonEmptyAppend(Split(x, '/'), Split(y, '/'));
  }

  /** A string without slashes is one segment, or none when it is empty. */
  lemma SegmentsOfPiece(s: string)
    requires '/' !in s
    ensures Segments(s) == if s == "" then [] else [s]
  {
    SplitNoSeparator(s, '/');
  }

  /** A repeated slash adds no segment. */
  lemma DoubleSlash(x: string, y: string)
    ensures Segments(x + "//" + y) == Segments(x + "/" + y)
  {
    assert Segments("/" + y) == Segments(y) by {
      SegmentsAtSlash("", y);
      SegmentsOfPiece("");
      assert "" + "/" + y == "/" + y;
    }
    assert Segments(x + "//" + y) == Segments(x) + Segments("/" + y) by {
      SegmentsAtSlash(x, "/" + y);
      assert x + "/" + ("/" + y) == x + "//" + y;
    }
    SegmentsAtSlash(x, y);
  }

  /** The root path has no segments, so it shows no crumbs. */
  lemma RootHasNoSegments()
    ensures Segments("/") == []
  {
    SegmentsOfPiece("");
    SegmentsAtSlash("", "");
    assert "" + "/" + "" == "/";
  }

  /** "/a/b" has the two segments a and b. */
  lemma TwoSegmentPath(a: string, b: string)
    requires a != "" && '/' !in a && b != "" && '/' !in b
    ensures Segments("/" + a + "/" + b) == [a, b]
  {
    var ab := a + "/" + b;
    assert Segments(ab) == [a, b] by {
      SegmentsOfPiece(a);
      SegmentsOfPiece(b);
      SegmentsAtSlash(a, b);
    }
    SegmentsOfPiece("");
    SegmentsAtSlash("", ab);
    assert "" + "/" + ab == "/" + a + "/" + b;
  }

  /** "//a//b/" has the segments of "/a/b": both are [a, b]. */
  lemma RepeatedSlashesExample(a: string, b: string)
    requires a != "" && '/' !in a && b != "" && '/' !in b
    ensures Segments("//" + a + "//" + b + "/") == Segments("/" + a + "/" + b) == [a, b]
  {
    var short := "/" + a + "/" + b;
    TwoSegmentPath(a, b);
    var trailing := short + "/";
    assert Segments(trailing) == [a, b] by {
      SegmentsOfPiece("");
      SegmentsAtSlash(short, "");
      assert short + "/" + "" == trailing;
    }
    var inner := "/" + a + "//" + b + "/";
    assert Segments(inner) == [a, b] by {
      DoubleSlash("/" + a, b + "/");
      assert ("/" + a) + "//" + (b + "/") == inner;
      assert ("/" + a) + "/" + (b + "/") == trailing;
    }
    assert Segments("//" + a + "//" + b + "/") == [a, b] by {
      DoubleSlash("", a + "//" + b + "/");
      assert "" + "//" + (a + "//" + b + "/") == "//" + a + "//" + b + "/";
      assert "" + "/" + (a + "//" + b + "/") == inner;
    }
  }

  /** The segments of a crumb's href are the segments it was built from, so
      the trail of a path's own crumbs reproduces the path's segments. */
  lemma {:induction false} HrefSegments(segments: seq<string>)
    requires forall i :: 0 <= i < |segments| ==> segments[i] != "" && '/' !in segments[i]
    ensures Segments(Href(segments)) == segments
  {
    if segments == [] {
      SplitNoSeparator("", '/');
    } else {
      var init := segments[..|segments| - 1];
      var last := segments[|segments| - 1];
      HrefSegments(init);
      SegmentsAtSlash(Href(init), last);
      SegmentsOfPiece(last);
      assert init + [last] == segments;
    }
  }

  /** Each crumb's href is a prefix of every later crumb's href. */
  lemma {:induction false} HrefPrefix(segments: seq<string>, i: nat, j: nat)
    requires i <= j <= |segments|
    ensures Href(segments[..i]) <= Href(segments[..j])
    decreases j - i
  {
    if i < j {
      HrefPrefix(segments, i, j - 1);
      assert segments[..j][..j - 1] == segments[..j - 1];
    }
  }

  // ---------------------------------------------------------------------
  // Rendering choice

  /** What a breadcrumb item renders: the current page (not a link) or a link. */
  datatype Item = Page(text: string) | Link(text: string, href: string)

  /** No crumbs render one "Dashboard" page item; otherwise every crumb is a
      link to its href except the last, which is the current page. */
  function Rendered(crumbs: seq<Crumb>): (items: seq<Item>)
    ensures crumbs == [] ==> items == [Page("Dashboard")]
    ensures crumbs != [] ==>
              && |items| == |crumbs|
              && items[|items| - 1] == Page(crumbs[|crumbs| - 1].text)
              && forall i :: 0 <= i < |crumbs| - 1 ==> items[i] == Link(crumbs[i].text, crumbs[i].href)
  {
    if crumbs == [] then
      [Page("Dashboard")]
    else
      seq(|crumbs|, i requires 0 <= i < |crumbs| =>
        if i == |crumbs| - 1 then Page(crumbs[i].text) else Link(crumbs[i].text, crumbs[i].href))
  }

  /** Exactly one rendered item is a page. */
  lemma OnePage(crumbs: seq<Crumb>)
    ensures var items := Rendered(crumbs);
      forall i :: 0 <= i < |items| ==> (items[i].Page? <==> i == |items| - 1)
  {
  }
}
