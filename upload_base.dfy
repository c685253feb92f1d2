/** The field initialisation of the base upload worker (worker/_upload_base.py):
    human-supplied names are made backend-safe by replacing every character
    outside the pattern `[\w_. -]` with an underscore. */
module UploadBase {

  /** `\w`, taken here as the ASCII word characters: letters, digits and `_`.
      Python's `\w` on `str` also accepts non-ASCII letters and digits. */
  predicate IsWordChar(c: char)
  {
    ('a' <= c <= 'z') || ('A' <= c <= 'Z') || ('0' <= c <= '9') || c == '_'
  }

  /** A character the pattern `[^\w_. -]` does not match. */
  predicate IsAllowed(c: char)
  {
    IsWordChar(c) || c == '_' || c == '.' || c == ' ' || c == '-'
  }

  predicate AllAllowed(s: string)
  {
    forall i :: 0 <= i < |s| ==> IsAllowed(s[i])
  }

  /** `re.sub(FILE_NAME_REGEX, '_', s)`: the pattern matches exactly one
      character at a time, so the substitution is a left-to-right scan. */
  function Sanitize(s: string): (r: string)
    ensures |r| == |s|
  {
    if s == [] then []
    else [if IsAllowed(s[0]) then s[0] else '_'] + Sanitize(s[1..])
  }

  /** Position by position: an allowed character stays, any other becomes `_`. */
  lemma {:induction false} SanitizeAt(s: string, i: nat)
    requires i < |s|
    ensures Sanitize(s)[i] == if IsAllowed(s[i]) then s[i] else '_'
  {
    if 0 < i {
      SanitizeAt(s[1..], i - 1);
    }
  }

  /** Every output character is a word character, `_`, `.`, space or `-`. */
  lemma SanitizeOutputAllowed(s: string)
    ensures AllAllowed(Sanitize(s))
  {
    forall i | 0 <= i < |s| ensures IsAllowed(Sanitize(s)[i]) {
      SanitizeAt(s, i);
    }
  }

  /** A string is left unchanged exactly when it has nothing to replace. */
  lemma SanitizeFixedPoints(s: string)
    ensures Sanitize(s) == s <==> AllAllowed(s)
  {
    forall i | 0 <= i < |s| ensures Sanitize(s)[i] == if IsAllowed(s[i]) then s[i] else '_' {
      SanitizeAt(s, i);
    }
    if !AllAllowed(s) {
      var i :| 0 <= i < |s| && !IsAllowed(s[i]);
      assert Sanitize(s)[i] != s[i];
    }
  }

  lemma SanitizeIdempotent(s: string)
    ensures Sanitize(Sanitize(s)) == Sanitize(s)
  {
    SanitizeOutputAllowed(s);
    SanitizeFixedPoints(Sanitize(s));
  }

  /** The fields `_BaseUploadWorker.__init__` sets. It sets no `file_id`. */
  datatype UploadWorker = UploadWorker(
    filePath: string,
    fileName: string,
    category1: string,
    category2: string,
    category3: string,
    blenderVersion: string,
    renderEngine: string,
    imageList: seq<string>)

  /** `_BaseUploadWorker(...)`: the same sanitizer on the name and the three
      category labels; every other argument stored verbatim. */
  function NewUploadWorker(
    filePath: string, fileName: string,
    category1: string, category2: string, category3: string,
    blenderVersion: string, renderEngine: string, imageList: seq<string>): (w: UploadWorker)
    ensures w.fileName == Sanitize(fileName) && w.category1 == Sanitize(category1)
    ensures w.category2 == Sanitize(category2) && w.category3 == Sanitize(category3)
    ensures AllAllowed(w.fileName) && AllAllowed(w.category1)
    ensures AllAllowed(w.category2) && AllAllowed(w.category3)
    ensures |w.fileName| == |fileName| && |w.category1| == |category1|
    ensures |w.category2| == |category2| && |w.category3| == |category3|
    ensures w.filePath == filePath && w.blenderVersion == blenderVersion
    ensures w.renderEngine == renderEngine && w.imageList == imageList
  {
    SanitizeOutputAllowed(fileName);
    SanitizeOutputAllowed(category1);
    SanitizeOutputAllowed(category2);
    SanitizeOutputAllowed(category3);
    UploadWorker(filePath, Sanitize(fileName), Sanitize(category1), Sanitize(category2),
      Sanitize(category3), blenderVersion, renderEngine, imageList)
  }
}
