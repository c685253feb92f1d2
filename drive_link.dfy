/** The acceptance decision of `GoogleDriveLinkMessageBox.check_and_accept`
    (widget/google_drive_link.py): a Drive folder link is accepted when its
    URL path names a folder and the folder's permissions let the signed-in
    user write to it. The URL parsing, the permission listing and the user
    lookup are network or library calls; their results are inputs here. */
module DriveLink {

  import opened Common

  // ----- splitting the URL path -----

  /** `s.split("/")`. */
  function Split(s: string): (parts: seq<string>)
    ensures |parts| >= 1
  {
    if s == [] then [[]]
    else
      var rest := Split(s[1..]);
      if s[0] == '/' then [[]] + rest else [[s[0]] + rest[0]] + rest[1..]
  }

  /** `"/".join(parts)`. */
  function JoinPath(parts: seq<string>): string
    requires |parts| >= 1
  {
    if |parts| == 1 then parts[0] else parts[0] + "/" + JoinPath(parts[1..])
  }

  /** No segment contains the separator. */
  lemma {:induction false} SplitSegmentsHaveNoSlash(s: string)
    ensures forall i :: 0 <= i < |Split(s)| ==> '/' !in Split(s)[i]
  {
    if s != [] {
      SplitSegmentsHaveNoSlash(s[1..]);
      var rest := Split(s[1..]);
      if s[0] != '/' {
        assert forall i :: 1 <= i < |Split(s)| ==> Split(s)[i] == rest[i];
        assert '/' !in [s[0]] + rest[0];
      }
    }
  }

  /** Joining the segments gives back the path. */
  lemma {:induction false} SplitJoinRoundTrip(s: string)
    ensures JoinPath(Split(s)) == s
  {
    if s != [] {
      SplitJoinRoundTrip(s[1..]);
      var rest := Split(s[1..]);
      if s[0] == '/' {
        assert Split(s)[1..] == rest;
      } else if |rest| == 1 {
      } else {
        assert Split(s)[1..] == rest[1..];
        assert JoinPath(rest) == rest[0] + "/" + JoinPath(rest[1..]);
      }
    }
  }

  /** A path without a separator is a single segment. */
  lemma {:induction false} SplitNoSlash(s: string)
    requires '/' !in s
    ensures Split(s) == [s]
  {
    if s != [] {
      assert s[0] in s && forall c :: c in s[1..] ==> c in s;
      SplitNoSlash(s[1..]);
      assert [s[0]] + s[1..] == s;
    }
  }

  /** A separator splits the path into the segments of each side. */
  lemma {:induction false} SplitAtSlash(a: string, b: string)
    ensures Split(a + "/" + b) == Split(a) + Split(b)
  {
    if a == [] {
      assert a + "/" + b == ['/'] + b;
      assert (['/'] + b)[1..] == b;
    } else {
      assert (a + "/" + b)[1..] == a[1..] + "/" + b;
      SplitAtSlash(a[1..], b);
    }
  }

  /** `parts.index(seg)` when present, or -1 when `seg not in parts`. */
  function FirstIndex(parts: seq<string>, seg: string): (r: int)
    ensures -1 <= r < |parts|
    ensures r < 0 <==> seg !in parts
    ensures 0 <= r ==> parts[r] == seg && seg !in parts[..r]
  {
    if parts == [] then -1
    else if parts[0] == seg then 0
    else
      var r := FirstIndex(parts[1..], seg);
      assert parts == [parts[0]] + parts[1..];
      if r < 0 then -1
      else
        assert parts[..r + 1] == [parts[0]] + parts[1..][..r];
        r + 1
  }

  // ----- the permission predicate -----

  /** An entry of the folder's permission list; `emailAddress` is absent for
      some grantees, and `permission.get("emailAddress")` is then None. */
  datatype Permission = Permission(id: string, role: string, emailAddress: Option<string>)

  /** The condition of the scan: an owner, or a writer that is the user
      (Python's `==` also holds when both e-mail addresses are None) or the
      "anyone with the link" grantee. */
  function Grants(p: Permission, userEmail: Option<string>): (g: bool)
    ensures g ==> p.role == "owner" || p.role == "writer"
    ensures p.role == "owner" ==> g
    ensures p.role == "writer" ==> (g <==> p.emailAddress == userEmail || p.id == "anyoneWithLink")
  {
    p.role == "owner" || ((p.emailAddress == userEmail || p.id == "anyoneWithLink") && p.role == "writer")
  }

  datatype Decision = Invalid | Denied | Accepted(folderId: string)

  /** The decision as the code makes it. When `"folders"` is the last segment
      the unguarded `path_parts[index + 1]` raises IndexError. */
  function DecideAsWritten(linkText: string, path: string, permissions: seq<Permission>,
                           userEmail: Option<string>): (r: Outcome<Decision>)
    ensures r.Raised? <==> linkText != [] && FirstIndex(Split(path), "folders") == |Split(path)| - 1
    ensures r.Raised? ==> r.error == IndexError
  {
    if linkText == [] then Ok(Invalid)
    else
      var parts := Split(path);
      var i := FirstIndex(parts, "folders");
      if i < 0 then Ok(Invalid)
      else if i + 1 >= |parts| then Raised(IndexError)
      else if permissions == [] then Ok(Invalid)
      else if exists p :: p in permissions && Grants(p, userEmail) then Ok(Accepted(parts[i + 1]))
      else Ok(Denied)
  }

  /** An absolute path of two separator-free names has three segments. */
  lemma SplitAbsoluteTwo(a: string, b: string)
    requires '/' !in a && '/' !in b
    ensures Split("/" + a + "/" + b) == ["", a, b]
  {
    SplitNoSlash(a);
    SplitNoSlash(b);
    SplitAtSlash(a, b);
    SplitAtSlash("", a + "/" + b);
    assert "" + "/" + (a + "/" + b) == "/" + a + "/" + b;
  }

  /** The link `https://drive.google.com/drive/folders` has the path
      `/drive/folders`, which passes the `"folders" in path_parts` check and
      then raises IndexError instead of being reported as invalid. */
  lemma TrailingFoldersRaises(linkText: string, permissions: seq<Permission>, userEmail: Option<string>)
    requires linkText != []
    ensures DecideAsWritten(linkText, "/drive/folders", permissions, userEmail) == Raised(IndexError)
  {
    SplitAbsoluteTwo("drive", "folders");
    assert "/" + "drive" + "/" + "folders" == "/drive/folders";
    var parts := Split("/drive/folders");
    assert FirstIndex(parts, "folders") == 2;
  }

  /** The decision, with a path whose last segment is `"folders"` treated as
      an invalid link like every other malformed one. */
  function Decide(linkText: string, path: string, permissions: seq<Permission>,
                  userEmail: Option<string>): (d: Decision)
    ensures linkText == [] ==> d == Invalid
    ensures "folders" !in Split(path) ==> d == Invalid
    ensures permissions == [] ==> d == Invalid
    ensures d.Accepted? <==>
      && linkText != []
      && 0 <= FirstIndex(Split(path), "folders") < |Split(path)| - 1
      && exists p :: p in permissions && Grants(p, userEmail)
    ensures d.Accepted? ==> d.folderId == Split(path)[FirstIndex(Split(path), "folders") + 1]
    ensures d == Denied <==>
      && linkText != []
      && 0 <= FirstIndex(Split(path), "folders") < |Split(path)| - 1
      && permissions != []
      && forall p :: p in permissions ==> !Grants(p, userEmail)
  {
    var parts := Split(path);
    var i := FirstIndex(parts, "folders");
    if linkText == [] || i < 0 || i + 1 >= |parts| || permissions == [] then Invalid
    else if exists p :: p in permissions && Grants(p, userEmail) then Accepted(parts[i + 1])
    else Denied
  }

  /** The correction changes nothing but the case that raised, which it
      reports as an invalid link. */
  lemma DecideCorrectsOnlyTheRaise(linkText: string, path: string, permissions: seq<Permission>,
                                   userEmail: Option<string>)
    ensures DecideAsWritten(linkText, path, permissions, userEmail).Ok? ==>
      Decide(linkText, path, permissions, userEmail) == DecideAsWritten(linkText, path, permissions, userEmail).value
    ensures DecideAsWritten(linkText, path, permissions, userEmail).Raised? ==>
      Decide(linkText, path, permissions, userEmail) == Invalid
  {
  }

  /** The signals of `GoogleDriveLinkSignals` that the check emits. */
  datatype LinkEvent = Result(folderId: string) | Finished

  /** The dialog: the signals emitted so far, and whether `accept()` closed it. */
  class DriveLinkDialog {
    var events: seq<LinkEvent>
    var accepted: bool

    constructor ()
      ensures events == [] && !accepted
    {
      events := [];
      accepted := false;
    }

    /** `check_and_accept()`, given the link text, the path `urlparse` gives
        for it, the permission list the Drive API returns for the folder and
        the user's e-mail. The permissions are scanned in order; the first
        that grants access emits `result(folder_id)` and `finished` once and
        ends the scan. An invalid or denied link emits nothing. */
    method CheckAndAccept(linkText: string, path: string, permissions: seq<Permission>,
                          userEmail: Option<string>) returns (d: Decision)
      modifies this
      ensures d == Decide(linkText, path, permissions, userEmail)
      ensures events == old(events) + (if d.Accepted? then [Result(d.folderId), Finished] else [])
      ensures accepted == (old(accepted) || d.Accepted?)
    {
      if linkText == [] {
        return Invalid;
      }
      var pathParts := Split(path);
      var index := FirstIndex(pathParts, "folders");
      if index < 0 || index + 1 >= |pathParts| {
        return Invalid;
      }
      var folderId := pathParts[index + 1];
      if permissions == [] {
        return Invalid;
      }
      for i := 0 to |permissions|
        invariant forall k :: 0 <= k < i ==> !Grants(permissions[k], userEmail)
        invariant events == old(events) && accepted == old(accepted)
      {
        var permission := permissions[i];
        if permission.role == "owner" ||
           ((permission.emailAddress == userEmail || permission.id == "anyoneWithLink") &&
            permission.role == "writer") {
          assert permission in permissions && Grants(permission, userEmail);
          events := events + [Result(folderId), Finished];
          accepted := true;
          return Accepted(folderId);
        }
      }
      d := Denied;
    }
  }
}
