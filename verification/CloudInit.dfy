/**
  Adding the capk user to a cloud-init document, on YAML node trees
  (cluster-api-provider-kubevirt/controllers/kubevirtmachine_controller.go, addCapkUserToCloudInitConfig).
 */
module CloudInit {
  import opened Common

  datatype Kind = Document | Sequence | Mapping | Scalar | Alias

  /** A YAML node; the keys and values of a mapping are siblings, alternating in `content`. */
  datatype Node = Node(kind: Kind, value: string, head: string, content: seq<Node>)

  function Text(s: string): Node {
    Node(Scalar, s, "", [])
  }

  /** The capk user with an authorized key, given as the node its text parses to. */
  function CapkUser(key: Node): Node {
    Node(Mapping, "", "", [
      Text("name"), Text("capk"),
      Text("gecos"), Text("CAPK User"),
      Text("sudo"), Text("ALL=(ALL) NOPASSWD:ALL"),
      Text("groups"), Text("users, admin"),
      Text("ssh_authorized_keys"), Node(Sequence, "", "", [key])])
  }

  function UsersSection(key: Node): Node {
    Node(Sequence, "", "", [CapkUser(key)])
  }

  // ------------------------------------------------------------------ recognising a cloud-config document

  const MARKER: string := "#cloud-config"

  /** A line of `s` starts at `i`, with the marker. */
  predicate MarkerAt(s: string, i: int) {
    0 <= i <= |s| - |MARKER| && (i == 0 || s[i - 1] == '\n') && s[i..i + |MARKER|] == MARKER
  }

  /** The regular expression (?m)^#cloud-config. */
  predicate HasMarkerLine(s: string) {
    exists i :: 0 <= i < |s| && MarkerAt(s, i)
  }

  /** The lines of a text. */
  function Lines(s: string): (lines: seq<string>)
    ensures lines != []
  {
    if s == "" then [""]
    else if s[0] == '\n' then [""] + Lines(s[1..])
    else var rest := Lines(s[1..]); [[s[0]] + rest[0]] + rest[1..]
  }

  predicate Marked(line: string) {
    |line| >= |MARKER| && line[..|MARKER|] == "#cloud-config"
  }

  lemma {:induction false} FirstLine(s: string)
    ensures var l := Lines(s)[0];
      |l| <= |s| && s[..|l|] == l && '\n' !in l && (|l| < |s| ==> s[|l|] == '\n')
  {
    if s == "" {
    } else if s[0] == '\n' {
    } else {
      FirstLine(s[1..]);
      var l := Lines(s[1..])[0];
      assert s[..|l| + 1] == [s[0]] + l;
    }
  }

  lemma FirstLineMarked(s: string)
    ensures MarkerAt(s, 0) <==> Marked(Lines(s)[0])
  {
    FirstLine(s);
    var l := Lines(s)[0];
    if MarkerAt(s, 0) {
      assert '\n' !in MARKER;
      assert forall i :: 0 <= i < |MARKER| ==> s[i] == MARKER[i];
      assert s[..|MARKER|] == l[..|MARKER|];
    }
    if Marked(l) {
      assert s[..|MARKER|] == l[..|MARKER|];
    }
  }

  ghost predicate MarkedAfterFirst(s: string) {
    exists i :: 0 < i < |s| && MarkerAt(s, i)
  }

  lemma MarkerMoves(s: string, i: int)
    requires s != "" && 0 < i < |s| - 1
    ensures MarkerAt(s, i + 1) <==> MarkerAt(s[1..], i)
  {
    if i <= |s| - 1 - |MARKER| {
      assert s[1..][i..i + |MARKER|] == s[i + 1..i + 1 + |MARKER|];
    }
  }

  lemma NewlineFirst(s: string)
    requires s != "" && s[0] == '\n'
    requires MarkedAfterFirst(s[1..]) <==> exists j :: 1 <= j < |Lines(s[1..])| && Marked(Lines(s[1..])[j])
    requires forall i :: 0 < i < |s| - 1 ==> (MarkerAt(s, i + 1) <==> MarkerAt(s[1..], i))
    ensures MarkedAfterFirst(s) <==> exists j :: 1 <= j < |Lines(s)| && Marked(Lines(s)[j])
  {
    var t := s[1..];
    FirstLineMarked(t);
    assert forall j :: 0 <= j < |Lines(t)| ==> Lines(s)[j + 1] == Lines(t)[j];
    assert MarkerAt(s, 1) <==> MarkerAt(t, 0) by {
      if |s| - 1 >= |MARKER| {
        assert s[1..1 + |MARKER|] == t[0..|MARKER|];
      }
    }
    if i :| 0 < i < |s| && MarkerAt(s, i) {
      assert i == 1 || MarkerAt(t, i - 1);
    }
    if j :| 1 <= j < |Lines(s)| && Marked(Lines(s)[j]) {
      assert Lines(s)[j] == Lines(t)[j - 1];
      if j > 1 {
        var i :| 0 < i < |t| && MarkerAt(t, i);
        assert MarkerAt(s, i + 1);
      }
    }
  }

  lemma {:induction false} LaterLines(s: string)
    ensures MarkedAfterFirst(s) <==> exists j :: 1 <= j < |Lines(s)| && Marked(Lines(s)[j])
  {
    if s == "" {
    } else {
      var t := s[1..];
      LaterLines(t);
      assert forall i :: 0 < i < |t| ==> (MarkerAt(s, i + 1) <==> MarkerAt(t, i)) by {
        forall i | 0 < i < |t| ensures MarkerAt(s, i + 1) <==> MarkerAt(t, i) {
          MarkerMoves(s, i);
        }
      }
      if s[0] == '\n' {
        NewlineFirst(s);
      } else {
        assert !MarkerAt(s, 1);
        assert forall j :: 1 <= j < |Lines(t)| ==> Lines(s)[j] == Lines(t)[j];
        if i :| 0 < i < |s| && MarkerAt(s, i) {
          assert MarkerAt(t, i - 1);
        }
        if i :| 0 < i < |t| && MarkerAt(t, i) {
          assert MarkerAt(s, i + 1);
        }
      }
    }
  }

  /** The regular expression matches exactly when some line starts with "#cloud-config". */
  lemma MarkerIsALine(s: string)
    ensures HasMarkerLine(s) <==> exists j :: 0 <= j < |Lines(s)| && Marked(Lines(s)[j])
  {
    FirstLineMarked(s);
    LaterLines(s);
    assert HasMarkerLine(s) <==> MarkerAt(s, 0) || MarkedAfterFirst(s);
  }

  /** The first non-empty of three comments, or the last. */
  function FirstComment(a: string, b: string, c: string): string {
    if a != "" then a else if b != "" then b else c
  }

  predicate IsCloudConfig(root: Node) {
    && root.kind.Document? && |root.content| == 1
    && root.content[0].kind.Mapping? && root.content[0].content != []
    && HasMarkerLine(FirstComment(root.head, root.content[0].head, root.content[0].content[0].head))
  }

  function Data(root: Node): seq<Node>
    requires IsCloudConfig(root)
  {
    root.content[0].content
  }

  // ------------------------------------------------------------------ finding the users and the capk user

  predicate UsersAt(data: seq<Node>, i: int)
    requires 0 <= i < |data|
  {
    i % 2 == 1 && data[i].kind.Sequence? && data[i - 1].value == "users"
  }

  /** Position of the first users section at or after `i`. */
  function FindUsers(data: seq<Node>, i: nat := 0): (r: Option<nat>)
    requires i <= |data|
    ensures r.Some? ==> i <= r.value < |data| && UsersAt(data, r.value)
    decreases |data| - i
  {
    if i == |data| then None else if UsersAt(data, i) then Some(i) else FindUsers(data, i + 1)
  }

  /** The value of the first `name` field at or after `j`. */
  function NameOf(fields: seq<Node>, j: nat := 0): Option<string>
    requires j <= |fields|
    decreases |fields| - j
  {
    if j == |fields| then None
    else if j % 2 == 1 && fields[j - 1].value == "name" then Some(fields[j].value)
    else NameOf(fields, j + 1)
  }

  predicate IsCapk(user: Node) {
    NameOf(user.content) == Some("capk")
  }

  function FindCapk(users: seq<Node>, i: nat := 0): (r: Option<nat>)
    requires i <= |users|
    ensures r.Some? ==> i <= r.value < |users| && IsCapk(users[r.value])
    decreases |users| - i
  {
    if i == |users| then None else if IsCapk(users[i]) then Some(i) else FindCapk(users, i + 1)
  }

  lemma {:induction false} FindUsersFirst(data: seq<Node>, i: nat)
    requires i <= |data|
    ensures match FindUsers(data, i)
            case None => forall j :: i <= j < |data| ==> !UsersAt(data, j)
            case Some(n) => i <= n < |data| && UsersAt(data, n) && forall j :: i <= j < n ==> !UsersAt(data, j)
    decreases |data| - i
  {
    if i < |data| && !UsersAt(data, i) {
      FindUsersFirst(data, i + 1);
    }
  }

  lemma {:induction false} FindCapkFirst(users: seq<Node>, i: nat)
    requires i <= |users|
    ensures match FindCapk(users, i)
            case None => forall j :: i <= j < |users| ==> !IsCapk(users[j])
            case Some(n) => i <= n < |users| && IsCapk(users[n]) && forall j :: i <= j < n ==> !IsCapk(users[j])
    decreases |users| - i
  {
    if i < |users| && !IsCapk(users[i]) {
      FindCapkFirst(users, i + 1);
    }
  }

  /** The value of the first field called `field`. */
  function Field(fields: seq<Node>, field: string, j: nat := 0): Option<Node>
    requires j <= |fields|
    decreases |fields| - j
  {
    if j == |fields| then None
    else if j % 2 == 1 && fields[j - 1].value == field then Some(fields[j])
    else Field(fields, field, j + 1)
  }

  predicate FieldAt(fields: seq<Node>, field: string, i: int) {
    0 < i < |fields| && i % 2 == 1 && fields[i - 1].value == field
  }

  /** It is the field at the first odd position that follows its name. */
  lemma {:induction false} FieldFirst(fields: seq<Node>, field: string, j: nat)
    requires j <= |fields|
    ensures match Field(fields, field, j)
            case None => forall i :: j <= i < |fields| ==> !FieldAt(fields, field, i)
            case Some(v) => exists i :: j <= i < |fields| && FieldAt(fields, field, i) && fields[i] == v
                                        && forall h :: j <= h < i ==> !FieldAt(fields, field, h)
    decreases |fields| - j
  {
    if j == |fields| {
    } else if FieldAt(fields, field, j) {
    } else {
      FieldFirst(fields, field, j + 1);
      if Field(fields, field, j + 1).Some? {
        var i :| j + 1 <= i < |fields| && FieldAt(fields, field, i) && fields[i] == Field(fields, field, j + 1).value
                 && forall h :: j + 1 <= h < i ==> !FieldAt(fields, field, h);
        assert forall h :: j <= h < i ==> !FieldAt(fields, field, h);
      }
    }
  }

  lemma {:induction false} NameIsField(fields: seq<Node>, j: nat)
    requires j <= |fields|
    ensures NameOf(fields, j) == match Field(fields, "name", j) case None => None case Some(v) => Some(v.value)
    decreases |fields| - j
  {
    if j == |fields| {
    } else {
      NameIsField(fields, j + 1);
    }
  }

  /** The user is the one that the code promises, with exactly this authorized key. */
  predicate IsCapkWith(user: Node, key: Node) {
    && user.kind.Mapping? && |user.content| == 10
    && Field(user.content, "name") == Some(Text("capk"))
    && Field(user.content, "gecos") == Some(Text("CAPK User"))
    && Field(user.content, "sudo") == Some(Text("ALL=(ALL) NOPASSWD:ALL"))
    && Field(user.content, "groups") == Some(Text("users, admin"))
    && Field(user.content, "ssh_authorized_keys") == Some(Node(Sequence, "", "", [key]))
  }

  lemma {:induction false} FieldIs(fields: seq<Node>, field: string, j: nat, i: nat)
    requires j <= i && FieldAt(fields, field, i) && forall h :: j <= h < i ==> !FieldAt(fields, field, h)
    ensures Field(fields, field, j) == Some(fields[i])
    decreases i - j
  {
    if i == j {
    } else {
      assert !FieldAt(fields, field, j);
      FieldIs(fields, field, j + 1, i);
    }
  }

  lemma CapkUserFields(key: Node)
    ensures IsCapkWith(CapkUser(key), key)
  {
    var fields := CapkUser(key).content;
    FieldIs(fields, "name", 0, 1);
    FieldIs(fields, "gecos", 0, 3);
    FieldIs(fields, "sudo", 0, 5);
    FieldIs(fields, "groups", 0, 7);
    FieldIs(fields, "ssh_authorized_keys", 0, 9);
  }

  lemma CapkUserIsCapk(key: Node)
    ensures IsCapk(CapkUser(key))
  {
    assert NameOf(CapkUser(key).content, 0) == NameOf(CapkUser(key).content, 1);
  }

  // ------------------------------------------------------------------ the injection, as a function

  function WithCapk(users: seq<Node>, key: Node): seq<Node> {
    match FindCapk(users)
    case Some(i) => users[i := CapkUser(key)]
    case None => users + [CapkUser(key)]
  }

  function WithUsers(data: seq<Node>, key: Node): seq<Node> {
    match FindUsers(data)
    case Some(i) => data[i := data[i].(content := WithCapk(data[i].content, key))]
    case None => data + [Text("users"), UsersSection(key)]
  }

  function Inject(root: Node, key: Node): (r: Node)
    requires IsCloudConfig(root)
    ensures IsCloudConfig(r) && |Data(r)| >= |Data(root)|
    ensures r == root.(content := [root.content[0].(content := Data(r))])
  {
    assert WithUsers(Data(root), key)[0].head == Data(root)[0].head;
    root.(content := [root.content[0].(content := WithUsers(root.content[0].content, key))])
  }

  // ------------------------------------------------------------------ the code

  /** The loop over the sections of the document. */
  method SearchUsers(data: seq<Node>) returns (found: Option<nat>)
    ensures found == FindUsers(data)
    ensures found.None? <==> forall n :: 0 < n < |data| ==>
      !(n % 2 == 1 && data[n].kind == Sequence && data[n - 1].value == "users")
    ensures found.Some? ==>
      && found.value % 2 == 1 && found.value < |data|
      && data[found.value].kind == Sequence && data[found.value - 1].value == "users"
  {
    for i := 0 to |data|
      invariant FindUsers(data) == FindUsers(data, i)
      invariant forall n :: 0 < n < i ==> !(n % 2 == 1 && data[n].kind == Sequence && data[n - 1].value == "users")
    {
      if i % 2 == 1 && data[i].kind.Sequence? && data[i - 1].value == "users" {
        return Some(i);
      }
    }
    return None;
  }

  /** The nested loops over the users and their fields, replacing the first capk user or appending one. */
  method OverrideCapk(users: seq<Node>, key: Node) returns (users': seq<Node>)
    ensures users' == WithCapk(users, key)
  {
    for i := 0 to |users|
      invariant FindCapk(users) == FindCapk(users, i)
    {
      var fields := users[i].content;
      var j := 0;
      while j < |fields|
        invariant 0 <= j <= |fields|
        invariant NameOf(fields) == NameOf(fields, j)
      {
        if j % 2 == 1 && fields[j - 1].value == "name" {
          if fields[j].value == "capk" {
            return users[i := CapkUser(key)];
          }
          break;
        }
        j := j + 1;
      }
      assert !IsCapk(users[i]);
    }
    return users + [CapkUser(key)];
  }

  /**
    addCapkUserToCloudInitConfig between parsing and printing. `key` is None when the key does not make a
    valid document of its own.
   */
  method AddCapkUser(root: Node, key: Option<Node>) returns (root': Node, modified: bool, failed: bool)
    ensures !IsCloudConfig(root) ==> root' == root && !modified && !failed
    ensures IsCloudConfig(root) ==> (failed <==> key.None?)
    ensures IsCloudConfig(root) && !failed ==> modified && root' == Inject(root, key.value)
    ensures failed ==> !modified
  {
    if !root.kind.Document? || |root.content| != 1 {
      return root, false, false;
    }
    var data := root.content[0];
    if !data.kind.Mapping? || |data.content| == 0 {
      return root, false, false;
    }
    var comments := [root.head, data.head, data.content[0].head];
    var headerComment := "";
    var n := 0;
    while n < 3
      invariant 0 <= n <= 3 && headerComment == ""
      invariant forall m :: 0 <= m < n ==> comments[m] == ""
    {
      headerComment := comments[n];
      if headerComment != "" {
        break;
      }
      n := n + 1;
    }
    assert comments[0] == root.head && comments[1] == data.head && comments[2] == data.content[0].head;
    assert headerComment == FirstComment(root.head, data.head, data.content[0].head);
    if !HasMarkerLine(headerComment) {
      return root, false, false;
    }
    var users := SearchUsers(data.content);
    if key.None? {
      return root, false, true;
    }
    var content := data.content;
    if users.None? {
      content := content + [Text("users"), UsersSection(key.value)];
    } else {
      var section := content[users.value];
      var list := OverrideCapk(section.content, key.value);
      content := content[users.value := section.(content := list)];
    }
    return root.(content := [data.(content := content)]), true, false;
  }

  /** A user is the capk user exactly when the first of its fields called "name" has the value "capk". */
  lemma IsCapkIff(user: Node)
    ensures IsCapk(user) <==> Field(user.content, "name").Some? && Field(user.content, "name").value.value == "capk"
  {
    NameIsField(user.content, 0);
  }

  /** The first comment of a document: of its root, of its mapping, or of the mapping's first key. */
  function Comments(root: Node): seq<string>
    requires |root.content| == 1 && root.content[0].content != []
  {
    [root.head, root.content[0].head, root.content[0].content[0].head]
  }

  predicate LeadComment(comments: seq<string>, n: int)
    requires |comments| == 3
  {
    0 <= n < 3 && (forall m :: 0 <= m < n ==> comments[m] == "") && (comments[n] != "" || n == 2)
  }

  /** A document is a cloud-config exactly when its first comment has a line that starts with "#cloud-config". */
  lemma IsCloudConfigIff(root: Node)
    ensures IsCloudConfig(root) <==>
      && root.kind == Document && |root.content| == 1
      && root.content[0].kind == Mapping && root.content[0].content != []
      && exists n, j :: LeadComment(Comments(root), n)
                     && 0 <= j < |Lines(Comments(root)[n])| && Marked(Lines(Comments(root)[n])[j])
  {
    if |root.content| == 1 && root.content[0].content != [] {
      var cs := Comments(root);
      var first := FirstComment(cs[0], cs[1], cs[2]);
      MarkerIsALine(first);
      var n := if cs[0] != "" then 0 else if cs[1] != "" then 1 else 2;
      assert LeadComment(cs, n) && cs[n] == first;
    }
  }

  // ------------------------------------------------------------------ what the injection means

  /** The list of users of a document. */
  function Users(data: seq<Node>): Option<seq<Node>> {
    match FindUsers(data)
    case None => None
    case Some(i) => Some(data[i].content)
  }

  /** A mapping as a parser delivers it: every key has its value. */
  predicate Paired(root: Node)
    requires IsCloudConfig(root)
  {
    |Data(root)| % 2 == 0
  }

  lemma {:induction false} FindUsersIs(data: seq<Node>, i: nat, n: nat)
    requires i <= n < |data| && UsersAt(data, n) && forall j :: i <= j < n ==> !UsersAt(data, j)
    ensures FindUsers(data, i) == Some(n)
    decreases n - i
  {
    if i < n {
      FindUsersIs(data, i + 1, n);
    }
  }

  lemma {:induction false} FindCapkIs(users: seq<Node>, i: nat, n: nat)
    requires i <= n < |users| && IsCapk(users[n]) && forall j :: i <= j < n ==> !IsCapk(users[j])
    ensures FindCapk(users, i) == Some(n)
    decreases n - i
  {
    if i < n {
      FindCapkIs(users, i + 1, n);
    }
  }

  /** Where the capk user is after an injection. */
  lemma WithCapkFinds(users: seq<Node>, key: Node)
    ensures FindCapk(WithCapk(users, key)) == Some(if FindCapk(users).Some? then FindCapk(users).value else |users|)
  {
    var users' := WithCapk(users, key);
    FindCapkFirst(users, 0);
    CapkUserIsCapk(key);
    FindCapkIs(users', 0, if FindCapk(users).Some? then FindCapk(users).value else |users|);
  }

  lemma WithCapkTwice(users: seq<Node>, k1: Node, k2: Node)
    ensures WithCapk(WithCapk(users, k1), k2) == WithCapk(users, k2)
  {
    WithCapkFinds(users, k1);
    FindCapkFirst(users, 0);
  }

  lemma WithUsersReplaces(data: seq<Node>, key: Node)
    requires FindUsers(data).Some?
    ensures FindUsers(WithUsers(data, key)) == FindUsers(data)
  {
    var data', n := WithUsers(data, key), FindUsers(data).value;
    FindUsersFirst(data, 0);
    forall j | 0 <= j < n ensures !UsersAt(data', j) {
      assert !UsersAt(data, j);
    }
    FindUsersIs(data', 0, n);
  }

  lemma UsersAtInFront(data: seq<Node>, more: seq<Node>, j: int)
    requires 0 <= j < |data|
    ensures UsersAt(data + more, j) == UsersAt(data, j)
  {
  }

  lemma UsersAtEnd(data: seq<Node>, a: Node, b: Node)
    requires !a.kind.Sequence? && a.value == "users" && b.kind.Sequence?
    ensures !UsersAt(data + [a, b], |data|)
    ensures UsersAt(data + [a, b], |data| + 1) <==> |data| % 2 == 0
  {
    assert (data + [a, b])[|data|] == a && (data + [a, b])[|data| + 1] == b;
  }

  /** A users section appended to a document that has none is found only at an odd position. */
  lemma AppendedUsers(data: seq<Node>, a: Node, b: Node)
    requires FindUsers(data).None? && !a.kind.Sequence? && a.value == "users" && b.kind.Sequence?
    ensures FindUsers(data + [a, b]) == if |data| % 2 == 0 then Some(|data| + 1) else None
  {
    var data' := data + [a, b];
    FindUsersFirst(data, 0);
    UsersAtEnd(data, a, b);
    assert |data'| == |data| + 2;
    FindUsersFirst(data', 0);
    if FindUsers(data').Some? && FindUsers(data').value < |data| {
      UsersAtInFront(data, [a, b], FindUsers(data').value);
    }
  }

  /** Where the users are after an injection into a document that has some, or whose keys have values. */
  lemma WithUsersFinds(data: seq<Node>, key: Node)
    requires FindUsers(data).Some? || |data| % 2 == 0
    ensures FindUsers(WithUsers(data, key)) == Some(if FindUsers(data).Some? then FindUsers(data).value else |data| + 1)
  {
    if FindUsers(data).Some? {
      WithUsersReplaces(data, key);
    } else {
      AppendedUsers(data, Text("users"), UsersSection(key));
    }
  }

  /** A key without a value in front hides the section that is appended. */
  lemma WithUsersLost(data: seq<Node>, key: Node)
    requires FindUsers(data).None? && |data| % 2 == 1
    ensures FindUsers(WithUsers(data, key)).None?
  {
    AppendedUsers(data, Text("users"), UsersSection(key));
  }

  lemma WithUsersTwice(data: seq<Node>, k1: Node, k2: Node)
    requires FindUsers(data).Some? || |data| % 2 == 0
    ensures WithUsers(WithUsers(data, k1), k2) == WithUsers(data, k2)
  {
    WithUsersFinds(data, k1);
    FindUsersFirst(data, 0);
    if FindUsers(data).Some? {
      WithCapkTwice(data[FindUsers(data).value].content, k1, k2);
    } else {
      WithCapkTwice([], k1, k2);
      assert WithCapk([], k1) == [CapkUser(k1)] && WithCapk([], k2) == [CapkUser(k2)];
    }
  }

  /**
    Injecting one key and then another is the same as injecting the other alone, for every pair of keys,
    exactly when the document already has a users section or each of its keys has a value. (A parser always
    delivers the latter.) With equal keys this is idempotence.
   */
  lemma LastKeyWinsIff(root: Node)
    requires IsCloudConfig(root)
    ensures (forall k1, k2 :: Inject(Inject(root, k1), k2) == Inject(root, k2))
       <==> Users(Data(root)).Some? || Paired(root)
  {
    if Users(Data(root)).Some? || Paired(root) {
      forall k1, k2 ensures Inject(Inject(root, k1), k2) == Inject(root, k2) {
        WithUsersTwice(Data(root), k1, k2);
      }
    } else {
      var k := Text("");
      WithUsersLost(Data(root), k);
      assert |Data(Inject(Inject(root, k), k))| == |Data(Inject(root, k))| + 2;
    }
  }

  lemma LastKeyWins(root: Node, k1: Node, k2: Node)
    requires IsCloudConfig(root) && Paired(root)
    ensures Inject(Inject(root, k1), k2) == Inject(root, k2)
  {
    LastKeyWinsIff(root);
  }

  /**
    Nothing else changes: every other section, the section's own attributes, and every user other than the
    first capk user keep their content and place.
   */
  lemma OnlyCapkChanges(root: Node, key: Node)
    requires IsCloudConfig(root)
    ensures var before, after := Data(root), Data(Inject(root, key));
      && |before| <= |after|
      && (forall i :: 0 <= i < |before| && Some(i) != FindUsers(before) ==> after[i] == before[i])
      && (Users(before).None? ==> after == before + [Text("users"), UsersSection(key)])
      && (Users(before).Some? ==>
            var n := FindUsers(before).value; var old', new' := before[n].content, after[n].content;
            && after[n] == before[n].(content := new')
            && |old'| <= |new'|
            && (forall i :: 0 <= i < |old'| && Some(i) != FindCapk(old') ==> new'[i] == old'[i])
            && |new'| == (if FindCapk(old').Some? then |old'| else |old'| + 1))
  {
    FindUsersFirst(Data(root), 0);
    if Users(Data(root)).Some? {
      FindCapkFirst(Users(Data(root)).value, 0);
    }
  }

  // ------------------------------------------------------------------ how many capk users

  function CapkCount(users: seq<Node>): nat {
    if users == [] then 0 else CapkCount(users[..|users| - 1]) + (if IsCapk(users[|users| - 1]) then 1 else 0)
  }

  lemma {:induction false} NoCapkNoCount(users: seq<Node>)
    ensures CapkCount(users) == 0 <==> FindCapk(users).None?
  {
    FindCapkFirst(users, 0);
    if users == [] {
    } else {
      var front := users[..|users| - 1];
      NoCapkNoCount(front);
      FindCapkFirst(front, 0);
    }
  }

  lemma {:induction false} ReplaceKeepsCount(users: seq<Node>, i: nat, u: Node)
    requires i < |users| && IsCapk(users[i]) && IsCapk(u)
    ensures CapkCount(users[i := u]) == CapkCount(users)
  {
    var front := users[..|users| - 1];
    if i < |front| {
      ReplaceKeepsCount(front, i, u);
      assert users[i := u][..|users| - 1] == front[i := u];
    } else {
      assert users[i := u][..|users| - 1] == front;
    }
  }

  lemma WithCapkCount(users: seq<Node>, key: Node)
    ensures CapkCount(WithCapk(users, key)) == if CapkCount(users) == 0 then 1 else CapkCount(users)
  {
    NoCapkNoCount(users);
    CapkUserIsCapk(key);
    FindCapkFirst(users, 0);
    if FindCapk(users).Some? {
      ReplaceKeepsCount(users, FindCapk(users).value, CapkUser(key));
    } else {
      assert WithCapk(users, key)[..|users|] == users;
    }
  }

  /**
    After the injection the first capk user of the document is the one with the new key, and the number of
    capk users is what it was, or one if there was none; so at most one before means exactly one after.
   */
  lemma OneCapkUser(root: Node, key: Node)
    requires IsCloudConfig(root) && (Users(Data(root)).Some? || Paired(root))
    ensures var before, after := Users(Data(root)), Users(Data(Inject(root, key)));
      && after.Some?
      && FindCapk(after.value).Some? && IsCapkWith(after.value[FindCapk(after.value).value], key)
      && CapkCount(after.value) == (if before.None? || CapkCount(before.value) == 0 then 1 else CapkCount(before.value))
  {
    var data := Data(root);
    WithUsersFinds(data, key);
    FindUsersFirst(data, 0);
    var list := if Users(data).Some? then Users(data).value else [];
    assert Users(Data(Inject(root, key))).value == WithCapk(list, key);
    WithCapkFinds(list, key);
    WithCapkCount(list, key);
    FindCapkFirst(WithCapk(list, key), 0);
    FindCapkFirst(list, 0);
    CapkUserFields(key);
  }

  /** The key is in the result: different keys give different documents. */
  lemma InjectionKeepsKey(root: Node, k1: Node, k2: Node)
    requires IsCloudConfig(root) && (Users(Data(root)).Some? || Paired(root))
    requires Inject(root, k1) == Inject(root, k2)
    ensures k1 == k2
  {
    OneCapkUser(root, k1);
    OneCapkUser(root, k2);
    assert [k1][0] == [k2][0];
  }
}
