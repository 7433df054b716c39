/** Full names of classes, DOMAIN:CLASS, and queries, DOMAIN:CLASS:DATA. */
module Names {

  datatype Split =
    | NoMatch
    | ClassName(domain: string, cls: string)
    | QueryName(domain: string, cls: string, data: string)

  /** Colons, space and the characters that are unsafe in a URL do not occur in domain and class names. */
  predicate LabelChar(c: char) { c !in ": \t\n\U{000C}\r<>#%{}|^[]" }

  predicate IsLabel(s: string) { s != "" && forall i :: 0 <= i < |s| ==> LabelChar(s[i]) }

  predicate OneLine(s: string) { '\n' !in s }

  /** The length of the longest run of label characters at the front. */
  function Run(s: string): (n: nat)
    ensures n <= |s| && (forall i :: 0 <= i < n ==> LabelChar(s[i])) && (n < |s| ==> !LabelChar(s[n]))
  {
    if s == "" || !LabelChar(s[0]) then 0 else 1 + Run(s[1..])
  }

  /** `ClassSplit`. */
  function ClassSplit(fullname: string): Split {
    var n := Run(fullname);
    if n == 0 || n == |fullname| || fullname[n] != ':' then NoMatch
    else
      var cls := fullname[n + 1..];
      if cls == "" || Run(cls) < |cls| then NoMatch else ClassName(fullname[..n], cls)
  }

  /** `QuerySplit`. */
  function QuerySplit(query: string): Split {
    var n := Run(query);
    if n == 0 || n == |query| || query[n] != ':' then NoMatch
    else
      var rest := query[n + 1..];
      var m := Run(rest);
      if m == 0 || m == |rest| || rest[m] != ':' || !OneLine(rest[m + 1..]) then NoMatch
      else QueryName(query[..n], rest[..m], rest[m + 1..])
  }

  function ClassJoin(domain: string, name: string): string { domain + ":" + name }

  function QueryJoin(domain: string, cls: string, data: string): string { domain + ":" + cls + ":" + data }

  /** The run of label characters at the front of a label is the label. */
  lemma {:induction false} RunOfLabel(name: string, rest: string)
    requires forall i :: 0 <= i < |name| ==> LabelChar(name[i])
    requires rest == "" || !LabelChar(rest[0])
    ensures Run(name + rest) == |name|
  {
    if name != "" {
      RunOfLabel(name[1..], rest);
      assert (name + rest)[1..] == name[1..] + rest;
    } else {
      assert name + rest == rest;
    }
  }

  lemma RunOfColon(name: string, rest: string)
    requires IsLabel(name)
    ensures var s := name + ":" + rest;
            Run(s) == |name| && s[|name|] == ':' && s[..|name|] == name && s[|name| + 1..] == rest
  {
    RunOfLabel(name, ":" + rest);
    assert name + ":" + rest == name + (":" + rest);
  }

  /** A label is not empty and has none of these characters. */
  lemma LabelIs(s: string)
    ensures IsLabel(s) <==> s != "" && forall i :: 0 <= i < |s| ==> s[i] !in ": \t\n\U{000C}\r<>#%{}|^[]"
  {
  }

  /** `ClassSplit` matches exactly the joined names of labels, and finds their parts. */
  lemma ClassSplitExact(fullname: string, d: string, c: string)
    ensures ClassSplit(fullname) == ClassName(d, c) <==> fullname == ClassJoin(d, c) && IsLabel(d) && IsLabel(c)
    ensures ClassSplit(fullname) == ClassName(d, c) <==>
              fullname == d + ":" + c && d != "" && c != ""
              && (forall i :: 0 <= i < |d| ==> d[i] !in ": \t\n\U{000C}\r<>#%{}|^[]")
              && (forall i :: 0 <= i < |c| ==> c[i] !in ": \t\n\U{000C}\r<>#%{}|^[]")
  {
    LabelIs(d);
    LabelIs(c);
    if fullname == ClassJoin(d, c) && IsLabel(d) && IsLabel(c) {
      RunOfColon(d, c);
      RunOfLabel(c, "");
      assert c + "" == c;
    }
    if ClassSplit(fullname) == ClassName(d, c) {
      var n := Run(fullname);
      assert fullname == fullname[..n] + [fullname[n]] + fullname[n + 1..];
    }
  }

  lemma CutAt(s: string, n: nat)
    requires n < |s| && s[n] == ':'
    ensures s == s[..n] + ":" + s[n + 1..]
  {
  }

  /** A query name is a domain, a colon and the rest. */
  lemma JoinNested(d: string, c: string, x: string)
    ensures QueryJoin(d, c, x) == d + ":" + (c + ":" + x)
  {
  }

  lemma QuerySplitFinds(d: string, c: string, x: string)
    requires IsLabel(d) && IsLabel(c) && OneLine(x)
    ensures QuerySplit(QueryJoin(d, c, x)) == QueryName(d, c, x)
  {
    hide QueryJoin, Run, OneLine;
    JoinNested(d, c, x);
    RunOfColon(d, c + ":" + x);
    RunOfColon(c, x);
  }

  lemma QuerySplitSound(query: string)
    ensures QuerySplit(query) != NoMatch ==>
              && QuerySplit(query).QueryName?
              && var q := QuerySplit(query);
                 query == QueryJoin(q.domain, q.cls, q.data) && IsLabel(q.domain) && IsLabel(q.cls) && OneLine(q.data)
  {
    hide QueryJoin;
    var q := QuerySplit(query);
    if q != NoMatch {
      var n := Run(query);
      var rest := query[n + 1..];
      CutAt(query, n);
      CutAt(rest, Run(rest));
      JoinNested(q.domain, q.cls, q.data);
    }
  }

  /** `QuerySplit` matches exactly the joined names of two labels and one line of data, and finds them. */
  lemma QuerySplitExact(query: string, d: string, c: string, x: string)
    ensures QuerySplit(query) == QueryName(d, c, x) <==>
            query == QueryJoin(d, c, x) && IsLabel(d) && IsLabel(c) && OneLine(x)
    ensures QuerySplit(query) == QueryName(d, c, x) <==>
              query == d + ":" + c + ":" + x && d != "" && c != ""
              && (forall i :: 0 <= i < |d| ==> d[i] !in ": \t\n\U{000C}\r<>#%{}|^[]")
              && (forall i :: 0 <= i < |c| ==> c[i] !in ": \t\n\U{000C}\r<>#%{}|^[]")
              && (forall i :: 0 <= i < |x| ==> x[i] != '\n')
  {
    LabelIs(d);
    LabelIs(c);
    QuerySplitSound(query);
    if IsLabel(d) && IsLabel(c) && OneLine(x) { QuerySplitFinds(d, c, x); }
  }

  /** Splitting undoes joining exactly for valid names and data of one line. */
  lemma SplitJoin(d: string, c: string, x: string)
    ensures ClassSplit(ClassJoin(d, c)) == ClassName(d, c) <==> IsLabel(d) && IsLabel(c)
    ensures QuerySplit(QueryJoin(d, c, x)) == QueryName(d, c, x) <==> IsLabel(d) && IsLabel(c) && OneLine(x)
  {
    ClassSplitExact(ClassJoin(d, c), d, c);
    QuerySplitExact(QueryJoin(d, c, x), d, c, x);
  }

  /** Joining undoes every successful split. */
  lemma JoinSplit(s: string)
    ensures var p := ClassSplit(s); p == NoMatch || (p.ClassName? && ClassJoin(p.domain, p.cls) == s)
    ensures var p := QuerySplit(s); p == NoMatch || (p.QueryName? && QueryJoin(p.domain, p.cls, p.data) == s)
  {
    var p, q := ClassSplit(s), QuerySplit(s);
    if p.ClassName? { ClassSplitExact(s, p.domain, p.cls); }
    if q.QueryName? { QuerySplitExact(s, q.domain, q.cls, q.data); }
  }

  /** Distinct queries have distinct names, and no name is both a class's and a query's. */
  lemma NamesDistinct(d: string, c: string, x: string, d': string, c': string, x': string)
    requires IsLabel(d) && IsLabel(c) && OneLine(x) && IsLabel(d') && IsLabel(c') && OneLine(x')
    ensures QueryJoin(d, c, x) == QueryJoin(d', c', x') ==> d == d' && c == c' && x == x'
    ensures ClassJoin(d, c) == ClassJoin(d', c') ==> d == d' && c == c'
    ensures QueryJoin(d, c, x) != ClassJoin(d', c')
  {
    SplitJoin(d, c, x);
    SplitJoin(d', c', x');
    var s := QueryJoin(d, c, x);
    assert s == d + ":" + (c + ":" + x);
    RunOfColon(d, c + ":" + x);
    RunOfColon(c, x);
    assert ClassSplit(s) == NoMatch;
  }

  /** Data of two lines is not split off again. */
  lemma TwoLinesDoNotSplit()
    ensures QuerySplit(QueryJoin("d", "c", "x\ny")) == NoMatch
  {
    SplitJoin("d", "c", "x\ny");
    JoinSplit(QueryJoin("d", "c", "x\ny"));
  }
}
