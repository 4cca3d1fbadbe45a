/**
 * The chat notification sent for an issue event: a one-line pretext naming the
 * project, the issue (once it is no longer just opened) and the user, plus an
 * attachment with the issue's title, link and description when the issue is opened.
 */
module IssueMessages {
  import opened Basics

  /** The arguments of an issue event: who acted, on which project, on which issue. */
  datatype IssueEvent = IssueEvent(
    userName: string,
    username: string,
    projectName: string,
    projectUrl: string,
    title: string,
    id: int,
    iid: nat,
    url: string,
    action: string,
    state: string,
    description: Option<string>)

  /** A message attachment: `title`, `title_link`, `text` and `color`. */
  datatype Attachment = Attachment(title: string, titleLink: string, text: string, color: string)

  /** The values a message is built from; the description is never `nil`. */
  datatype IssueMessage = IssueMessage(
    username: string,
    projectName: string,
    projectUrl: string,
    title: string,
    iid: nat,
    url: string,
    action: string,
    state: string,
    description: string)

  /** The colour of an opened-issue attachment. */
  const AttachmentColor: string := "#C95823"

  /** `IssueMessage.new(args)`: a missing description becomes the empty string. */
  function NewMessage(args: IssueEvent): (m: IssueMessage)
    ensures m.description == if args.description.Some? then args.description.value else ""
    ensures m.username == args.username && m.projectName == args.projectName && m.projectUrl == args.projectUrl
    ensures m.title == args.title && m.iid == args.iid && m.url == args.url
    ensures m.action == args.action && m.state == args.state
  {
    IssueMessage(args.username, args.projectName, args.projectUrl, args.title, args.iid, args.url,
                 args.action, args.state, args.description.GetOr(""))
  }

  /** `#<iid> <title>`. */
  function IssueTitle(m: IssueMessage): string {
    "#" + Decimal(m.iid) + " " + m.title
  }

  /** `[<project_url|project_name>] Issue `: the project link, which every pretext starts with. */
  function ProjectPart(m: IssueMessage): string {
    "[<" + m.projectUrl + "|" + m.projectName + ">] Issue "
  }

  /** The link `<url|#<iid> <title>> ` to the issue, left out while the issue is just opened. */
  function IssuePart(m: IssueMessage): string {
    if m.state == "opened" then "" else "<" + m.url + "|" + IssueTitle(m) + "> "
  }

  /** `pretext`: project link, the issue unless just opened, the state and the user. */
  function Pretext(m: IssueMessage): (r: string)
    ensures |ProjectPart(m)| <= |r| && r[..|ProjectPart(m)|] == ProjectPart(m)
    ensures EndsWith(r, " by " + m.username)
  {
    Framed(ProjectPart(m), IssuePart(m) + m.state, " by " + m.username)
  }

  /** `a + b + c`, which starts with `a` and ends with `c`. */
  function Framed(a: string, b: string, c: string): (r: string)
    ensures |a| <= |r| && r[..|a|] == a && EndsWith(r, c)
  {
    a + b + c
  }

  /** `attachments`: the issue's title, link, description and colour when it is opened, none otherwise. */
  function Attachments(m: IssueMessage): (r: seq<Attachment>)
    ensures r != [] <==> m.action == "open"
    ensures r != [] ==> r == [Attachment(IssueTitle(m), m.url, m.description, AttachmentColor)]
  {
    if m.action == "open" then [Attachment(IssueTitle(m), m.url, m.description, AttachmentColor)] else []
  }

  // ---------------------------------------------------------------------------
  // The two messages

  /** Opening: `[<project_url|project_name>] Issue opened by <username>`. */
  lemma OpenedPretext(m: IssueMessage)
    requires m.state == "opened"
    ensures Pretext(m) == "[<" + m.projectUrl + "|" + m.projectName + ">] Issue opened by " + m.username
  {
    OpenedShape("[<" + m.projectUrl + "|" + m.projectName, m.username, ProjectPart(m), Pretext(m));
  }

  lemma OpenedShape(link: string, user: string, head: string, r: string)
    requires head == link + ">] Issue "
    requires r == head + ("" + "opened") + (" by " + user)
    ensures r == link + ">] Issue opened by " + user
  {
    assert r == link + (">] Issue " + "opened" + " by ") + user;
  }

  /** Closing: `[<project_url|project_name>] Issue <url|#<iid> <title>> closed by <username>`. */
  lemma ClosedPretext(m: IssueMessage)
    requires m.state == "closed"
    ensures Pretext(m) == "[<" + m.projectUrl + "|" + m.projectName + ">] Issue <" + m.url + "|#"
                          + Decimal(m.iid) + " " + m.title + "> closed by " + m.username
  {
    ClosedShape("[<" + m.projectUrl + "|" + m.projectName, m.url, "#" + Decimal(m.iid) + " " + m.title,
                m.username, ProjectPart(m), IssuePart(m), Pretext(m));
  }

  lemma ClosedShape(link: string, url: string, title: string, user: string, head: string, issue: string, r: string)
    requires head == link + ">] Issue "
    requires issue == "<" + url + "|" + title + "> "
    requires r == head + (issue + "closed") + (" by " + user)
    ensures r == link + ">] Issue <" + url + "|" + title + "> closed by " + user
  {
    assert r == link + (">] Issue " + "<") + url + "|" + title + ("> " + "closed" + " by ") + user;
  }

  /** Counting characters: the not-opened pretext is longer by exactly the issue link. */
  lemma {:induction false} PretextLength(m: IssueMessage)
    ensures |Pretext(m)| == |m.projectUrl| + |m.projectName| + 12 + |m.state| + 4 + |m.username|
                            + (if m.state == "opened" then 0 else |m.url| + |Decimal(m.iid)| + |m.title| + 6)
  {
  }

  /** Different users give different pretexts, so the pretext names who acted. */
  lemma PretextNamesUser(m: IssueMessage, n: IssueMessage)
    requires n == m.(username := n.username) && n.username != m.username
    ensures Pretext(m) != Pretext(n)
  {
    if |n.username| == |m.username| {
      var k := |Pretext(m)| - |m.username|;
      assert Pretext(m)[k..] == m.username;
      assert Pretext(n)[k..] == n.username;
    } else {
      PretextLength(m);
      PretextLength(n);
    }
  }

  /** A missing description is sent as the empty text. */
  lemma NilDescriptionIsEmpty(args: IssueEvent)
    requires args.description.None? && args.action == "open"
    ensures NewMessage(args).description == ""
    ensures Attachments(NewMessage(args))[0].text == ""
  {
  }

  // ---------------------------------------------------------------------------
  // The event of the test file

  function TestEvent(action: string, state: string, description: Option<string>): IssueEvent {
    IssueEvent("Test User", "test.user", "project_name", "http://somewhere.com", "Issue title", 10, 100,
               "http://url.com", action, state, description)
  }

  lemma DecimalHundred()
    ensures Decimal(100) == "100"
  {
    assert Decimal(1) == "1";
    assert Decimal(10) == Decimal(1) + "0";
  }

  /** Opening issue 100: the attachment of the test file. */
  lemma TestOpenAttachment()
    ensures Attachments(NewMessage(TestEvent("open", "opened", Some("issue description"))))
            == [Attachment("#100 Issue title", "http://url.com", "issue description", "#C95823")]
  {
    var m := NewMessage(TestEvent("open", "opened", Some("issue description")));
    DecimalHundred();
    assert IssueTitle(m) == "#" + "100" + " " + "Issue title";
    assert IssueTitle(m) == "#100 Issue title";
  }

  /** Closing issue 100: no attachment. */
  lemma TestCloseAttachment()
    ensures Attachments(NewMessage(TestEvent("close", "closed", Some("issue description")))) == []
  {
  }

  /** A `nil` description is read as `''`. */
  lemma TestNilDescription()
    ensures NewMessage(TestEvent("open", "opened", None)).description == ""
  {
  }
}
