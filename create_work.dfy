/** The work-creation form of src/pages/CreateWork.tsx: its selected tags and
    their case-insensitive de-duplication, the image list, and the submission
    that partitions tags into existing ids and new names. */
module CreateWork {
  import opened Wrappers
  import opened Seqs
  import opened Text
  import opened Http

  /** A tag of the draft; `tagId` is present only for a tag that exists on the server. */
  datatype TagItem = TagItem(tagId: Option<string>, name: string)

  /** An image read from disk, as a data URL with its file name. */
  datatype FileItem = FileItem(dataUrl: string, name: string)

  datatype Status = Draft | Published

  datatype Image = Image(dataUrl: string, alttext: string)

  /** The JSON body POSTed to `/works`. */
  datatype PostBody = PostBody(title: string, description: string, status: Status,
                               tagIds: seq<string>, newTags: seq<string>, images: seq<Image>)

  /** The created work in a successful reply; "" stands for a missing field. */
  datatype CreatedWork = CreatedWork(workId: string, id: string)

  const TitleRequiredMessage: string := "กรอกชื่อโพสก่อน"
  const LoginRequiredMessage: string := "กรุณาเข้าสู่ระบบ"
  const CreatedMessage: string := "สร้างโพสสำเร็จ"
  const GenericErrorMessage: string := "เกิดข้อผิดพลาด"

  // ===== tags =====

  /** `!!t.tagId`: an empty id counts as no id. */
  predicate HasId(t: TagItem) {
    t.tagId.Some? && t.tagId.value != ""
  }

  /** `tags.filter(t => !!t.tagId).map(t => t.tagId)`. */
  function TagIds(tags: seq<TagItem>): seq<string> {
    if |tags| == 0 then []
    else (if HasId(tags[0]) then [tags[0].tagId.value] else []) + TagIds(tags[1..])
  }

  /** `tags.filter(t => !t.tagId).map(t => t.name)`. */
  function NewTags(tags: seq<TagItem>): seq<string> {
    if |tags| == 0 then []
    else (if HasId(tags[0]) then [] else [tags[0].name]) + NewTags(tags[1..])
  }

  /** The submitted tags are partitioned: each tag with an id contributes its id to
      `tagIds`, each tag without one contributes its name to `newTags`, nothing else
      appears in either list, and together they have one entry per tag. */
  lemma {:induction false} TagsPartitioned(tags: seq<TagItem>)
    ensures |TagIds(tags)| + |NewTags(tags)| == |tags|
    ensures forall i :: 0 <= i < |tags| && HasId(tags[i]) ==> tags[i].tagId.value in TagIds(tags)
    ensures forall i :: 0 <= i < |tags| && !HasId(tags[i]) ==> tags[i].name in NewTags(tags)
    ensures forall id :: id in TagIds(tags) ==> exists i :: 0 <= i < |tags| && HasId(tags[i]) && tags[i].tagId.value == id
    ensures forall n :: n in NewTags(tags) ==> exists i :: 0 <= i < |tags| && !HasId(tags[i]) && tags[i].name == n
  {
    if |tags| > 0 {
      var rest := tags[1..];
      TagsPartitioned(rest);
      assert forall i :: 1 <= i < |tags| ==> tags[i] == rest[i - 1];
      forall id | id in TagIds(tags)
        ensures exists i :: 0 <= i < |tags| && HasId(tags[i]) && tags[i].tagId.value == id
      {
        if id !in TagIds(rest) {
          assert HasId(tags[0]) && tags[0].tagId.value == id;
        } else {
          var i :| 0 <= i < |rest| && HasId(rest[i]) && rest[i].tagId.value == id;
          assert tags[i + 1] == rest[i];
        }
      }
      forall n | n in NewTags(tags)
        ensures exists i :: 0 <= i < |tags| && !HasId(tags[i]) && tags[i].name == n
      {
        if n !in NewTags(rest) {
          assert !HasId(tags[0]) && tags[0].name == n;
        } else {
          var i :| 0 <= i < |rest| && !HasId(rest[i]) && rest[i].name == n;
          assert tags[i + 1] == rest[i];
        }
      }
    }
  }

  /** The filter tests of the two lists. */
  function WithId(): TagItem -> bool {
    t => HasId(t)
  }

  function WithoutId(): TagItem -> bool {
    t => !HasId(t)
  }

  /** `.map(t => t.tagId)` over tags that all have one. */
  function IdsOf(tags: seq<TagItem>): (ids: seq<string>)
    ensures |ids| == |tags|
    ensures forall i :: 0 <= i < |tags| && tags[i].tagId.Some? ==> ids[i] == tags[i].tagId.value
  {
    seq(|tags|, i requires 0 <= i < |tags| => tags[i].tagId.GetOr(""))
  }

  /** `.map(t => t.name)`. */
  function NamesOf(tags: seq<TagItem>): (names: seq<string>)
    ensures |names| == |tags|
    ensures forall i :: 0 <= i < |tags| ==> names[i] == tags[i].name
  {
    seq(|tags|, i requires 0 <= i < |tags| => tags[i].name)
  }

  lemma IdsOfCons(t: TagItem, tags: seq<TagItem>)
    requires t.tagId.Some?
    ensures IdsOf([t] + tags) == [t.tagId.value] + IdsOf(tags)
  {
    assert forall i :: 0 < i <= |tags| ==> ([t] + tags)[i] == tags[i - 1];
  }

  /** `tagIds` keeps the order of the selected tags: it is the ids of the tags
      that have one, in tag order. */
  lemma {:induction false} TagIdsInOrder(tags: seq<TagItem>)
    ensures TagIds(tags) == IdsOf(Filter(tags, WithId()))
  {
    if |tags| > 0 {
      var rest := tags[1..];
      TagIdsInOrder(rest);
      var kept := Filter(rest, WithId());
      if HasId(tags[0]) {
        assert TagIds(tags) == [tags[0].tagId.value] + TagIds(rest);
        assert Filter(tags, WithId()) == [tags[0]] + kept;
        IdsOfCons(tags[0], kept);
      } else {
        assert TagIds(tags) == TagIds(rest);
        assert Filter(tags, WithId()) == kept;
      }
    }
  }

  lemma NamesOfCons(t: TagItem, tags: seq<TagItem>)
    ensures NamesOf([t] + tags) == [t.name] + NamesOf(tags)
  {
    assert forall i :: 0 < i <= |tags| ==> ([t] + tags)[i] == tags[i - 1];
  }

  /** `newTags` keeps the order of the selected tags: it is the names of the tags
      without an id, in tag order. */
  lemma {:induction false} NewTagsInOrder(tags: seq<TagItem>)
    ensures NewTags(tags) == NamesOf(Filter(tags, WithoutId()))
  {
    if |tags| > 0 {
      var rest := tags[1..];
      NewTagsInOrder(rest);
      var kept := Filter(rest, WithoutId());
      if HasId(tags[0]) {
        assert NewTags(tags) == NewTags(rest);
        assert Filter(tags, WithoutId()) == kept;
      } else {
        assert NewTags(tags) == [tags[0].name] + NewTags(rest);
        assert Filter(tags, WithoutId()) == [tags[0]] + kept;
        NamesOfCons(tags[0], kept);
      }
    }
  }

  /** `files.map(f => ({ dataUrl: f.dataUrl, alttext: f.name }))`. */
  function ImagesOf(files: seq<FileItem>): (images: seq<Image>)
    ensures |images| == |files|
    ensures forall i :: 0 <= i < |files| ==> images[i].dataUrl == files[i].dataUrl && images[i].alttext == files[i].name
  {
    seq(|files|, i requires 0 <= i < |files| => Image(files[i].dataUrl, files[i].name))
  }

  /** The request body `onSubmit` builds: trimmed title, tags split by `TagIds` and
      `NewTags`, images in file order. */
  function BodyOf(title: string, description: string, status: Status,
                  tags: seq<TagItem>, files: seq<FileItem>): PostBody
  {
    PostBody(Trim(title), description, status, TagIds(tags), NewTags(tags), ImagesOf(files))
  }

  /** No two tags have names equal ignoring case. */
  predicate DistinctNames(tags: seq<TagItem>) {
    forall i, j :: 0 <= i < j < |tags| ==> !SameIgnoringCase(tags[i].name, tags[j].name)
  }

  /** Some tag's name equals `n` ignoring case: `tags.some(t => t.name.toLowerCase() === n.toLowerCase())`. */
  predicate HasTagNamed(tags: seq<TagItem>, n: string) {
    exists i :: 0 <= i < |tags| && SameIgnoringCase(tags[i].name, n)
  }

  /** `suggestions.find(s => s.name.toLowerCase() === n.toLowerCase())`: the first
      suggestion whose name equals `n` ignoring case, if any. */
  function FindSuggestion(suggestions: seq<TagItem>, n: string): (r: Option<TagItem>)
    ensures r.None? <==> !HasTagNamed(suggestions, n)
    ensures r.Some? ==> exists k :: 0 <= k < |suggestions| && suggestions[k] == r.value
                                   && SameIgnoringCase(r.value.name, n)
                                   && forall j :: 0 <= j < k ==> !SameIgnoringCase(suggestions[j].name, n)
  {
    if |suggestions| == 0 then None
    else if SameIgnoringCase(suggestions[0].name, n) then Some(suggestions[0])
    else
      var r := FindSuggestion(suggestions[1..], n);
      assert forall j :: 1 <= j < |suggestions| ==> suggestions[j] == suggestions[1..][j - 1];
      assert r.Some? ==> exists k :: 0 <= k < |suggestions[1..]| && suggestions[1..][k] == r.value
                                   && forall j :: 0 <= j < k ==> !SameIgnoringCase(suggestions[1..][j].name, n);
      r
  }

  /** The tag `addTagByName` appends for the trimmed name `n`: the matching suggestion
      (with its id and spelling) if there is one, otherwise a new tag named `n` without an id. */
  function ChosenTag(suggestions: seq<TagItem>, n: string): (t: TagItem)
    ensures SameIgnoringCase(t.name, n)
    ensures HasTagNamed(suggestions, n) ==> t in suggestions
    ensures !HasTagNamed(suggestions, n) ==> t == TagItem(None, n)
  {
    FindSuggestion(suggestions, n).GetOr(TagItem(None, n))
  }

  /** The tag `addTagByName` chooses for a name no selected tag has, ignoring case,
      can be appended without breaking distinct names. */
  lemma AddingChosenKeepsDistinct(tags: seq<TagItem>, suggestions: seq<TagItem>, n: string)
    requires DistinctNames(tags)
    requires !HasTagNamed(tags, n)
    ensures DistinctNames(tags + [ChosenTag(suggestions, n)])
  {
    var chosen := ChosenTag(suggestions, n);
    assert Lower(chosen.name) == Lower(n);
    AppendKeepsDistinct(tags, chosen);
  }

  /** Appending a tag whose name differs, ignoring case, from every selected tag keeps the names distinct. */
  lemma AppendKeepsDistinct(tags: seq<TagItem>, t: TagItem)
    requires DistinctNames(tags)
    requires !HasTagNamed(tags, t.name)
    ensures DistinctNames(tags + [t])
  {
    var r := tags + [t];
    forall i, j | 0 <= i < j < |r|
      ensures !SameIgnoringCase(r[i].name, r[j].name)
    {
      if j == |tags| {
        assert r[i] == tags[i] && r[j] == t;
      }
    }
  }

  /** Dropping tags keeps the remaining names distinct. */
  lemma {:induction false} FilterKeepsDistinct(tags: seq<TagItem>, p: TagItem -> bool)
    requires DistinctNames(tags)
    ensures DistinctNames(Filter(tags, p))
  {
    if |tags| > 0 {
      var rest := tags[1..];
      assert DistinctNames(rest) by {
        forall i, j | 0 <= i < j < |rest|
          ensures !SameIgnoringCase(rest[i].name, rest[j].name)
        {
          assert rest[i] == tags[i + 1] && rest[j] == tags[j + 1];
        }
      }
      FilterKeepsDistinct(rest, p);
      if p(tags[0]) {
        var r := Filter(tags, p);
        assert r == [tags[0]] + Filter(rest, p);
        forall j | 1 <= j < |r|
          ensures !SameIgnoringCase(r[0].name, r[j].name)
        {
          assert r[j] in rest;
          var k :| 0 <= k < |rest| && rest[k] == r[j];
          assert tags[k + 1] == r[j];
        }
      }
    }
  }

  /** The test `removeTag` filters with: the name differs, compared case-sensitively. */
  function NameIsNot(name: string): TagItem -> bool {
    (t: TagItem) => t.name != name
  }

  /** `removeTag(name)` keeps exactly the tags not named `name`, in order. */
  lemma RemoveTagEffect(tags: seq<TagItem>, name: string)
    ensures IsSubseq(Filter(tags, NameIsNot(name)), tags)
    ensures forall t :: t in Filter(tags, NameIsNot(name)) ==> t.name != name
    ensures forall i :: 0 <= i < |tags| && tags[i].name != name ==> tags[i] in Filter(tags, NameIsNot(name))
  {
    FilterIsSubseq(tags, NameIsNot(name));
  }

  // ===== the form =====

  /** The state of the creation form. */
  class PostDraft {
    var title: string
    var description: string
    var status: Status
    var tags: seq<TagItem>
    var query: string
    var suggestions: seq<TagItem>
    var files: seq<FileItem>
    var message: Option<string>
    var submitting: bool

    /** The selected tags never repeat a name, ignoring case. */
    ghost predicate Valid()
      reads this
    {
      DistinctNames(tags)
    }

    constructor ()
      ensures Valid()
      ensures title == "" && description == "" && status == Draft
      ensures tags == [] && query == "" && suggestions == [] && files == []
      ensures message == None && !submitting
    {
      title, description, status := "", "", Draft;
      tags, query, suggestions, files := [], "", [], [];
      message, submitting := None, false;
    }

    /** `canSubmit`: the trimmed title is non-empty (the title is not all
        whitespace, by the contract of `Trim`) and no submission is in flight. */
    predicate CanSubmit()
      reads this
    {
      !AllSpace(title) && !submitting
    }

    method SetTitle(text: string)
      modifies this
      ensures title == text
      ensures tags == old(tags) && query == old(query) && suggestions == old(suggestions)
      ensures files == old(files) && message == old(message) && submitting == old(submitting)
      ensures description == old(description) && status == old(status)
    {
      title := text;
    }

    method SetQuery(text: string)
      modifies this
      ensures query == text
      ensures title == old(title) && tags == old(tags) && suggestions == old(suggestions)
      ensures files == old(files) && message == old(message) && submitting == old(submitting)
      ensures description == old(description) && status == old(status)
    {
      query := text;
    }

    /** The debounce timer firing: a blank query clears the suggestions without a
        request; otherwise the reply of the one request, unless that cycle was
        cancelled by a newer keystroke, replaces them. */
    method SuggestTimerFired(reply: Reply<seq<TagItem>>, cancelled: bool) returns (requested: bool)
      requires Valid()
      modifies this
      ensures Valid()
      ensures requested <==> Trim(old(query)) != ""
      ensures !requested ==> suggestions == []
      ensures requested ==> (suggestions ==
        if reply.Response? && IsOk(reply.status) && reply.body.json.Parsed? && !cancelled
        then reply.body.json.value else old(suggestions))
      ensures title == old(title) && tags == old(tags) && query == old(query)
      ensures files == old(files) && message == old(message) && submitting == old(submitting)
      ensures description == old(description) && status == old(status)
    {
      if Trim(query) == "" {
        suggestions := [];
        return false;
      }
      requested := true;
      if reply.Response? && IsOk(reply.status) && reply.body.json.Parsed? && !cancelled {
        suggestions := reply.body.json.value;
      }
    }

    /** `addTagByName`: a name blank after trimming, or equal ignoring case to a
        selected tag, changes nothing; otherwise exactly one tag (the matching
        suggestion, or a new one) is appended and the query and suggestions are cleared. */
    method AddTagByName(name: string)
      requires Valid()
      modifies this
      ensures Valid()
      ensures var n := Trim(name);
        if n == "" || HasTagNamed(old(tags), n) then
          tags == old(tags) && query == old(query) && suggestions == old(suggestions)
        else
          tags == old(tags) + [ChosenTag(old(suggestions), n)] && query == "" && suggestions == []
      ensures title == old(title) && files == old(files) && message == old(message) && submitting == old(submitting)
      ensures description == old(description) && status == old(status)
    {
      var n := Trim(name);
      if n != "" && !HasTagNamed(tags, n) {
        var chosen := ChosenTag(suggestions, n);
        AddingChosenKeepsDistinct(tags, suggestions, n);
        tags := tags + [chosen];
        query := "";
        suggestions := [];
      }
    }

    /** `removeTag`: drops every tag named exactly `name`, keeping the others in order. */
    method RemoveTag(name: string)
      requires Valid()
      modifies this
      ensures Valid()
      ensures tags == Filter(old(tags), NameIsNot(name))
      ensures title == old(title) && query == old(query) && suggestions == old(suggestions)
      ensures files == old(files) && message == old(message) && submitting == old(submitting)
      ensures description == old(description) && status == old(status)
    {
      FilterKeepsDistinct(tags, NameIsNot(name));
      tags := Filter(tags, NameIsNot(name));
    }

    /** The `FileReader` callback: appends one read image. */
    method AddFile(f: FileItem)
      modifies this
      ensures files == old(files) + [f]
      ensures title == old(title) && tags == old(tags) && query == old(query)
      ensures suggestions == old(suggestions) && message == old(message) && submitting == old(submitting)
      ensures description == old(description) && status == old(status)
    {
      files := files + [f];
    }

    /** `removeImage(idx)`: drops the image at `idx`, keeping the order of the rest;
        an index out of range changes nothing. */
    method RemoveImage(idx: int)
      modifies this
      ensures files == if 0 <= idx < |old(files)| then old(files)[..idx] + old(files)[idx + 1..] else old(files)
      ensures title == old(title) && tags == old(tags) && query == old(query)
      ensures suggestions == old(suggestions) && message == old(message) && submitting == old(submitting)
      ensures description == old(description) && status == old(status)
    {
      WithoutIndexSplice(files, idx);
      files := WithoutIndex(files, idx);
    }

    /** `onSubmit` up to its request: a title that trims to nothing only sets the message and sends
        nothing; otherwise the form starts submitting, clears the message and sends the body. */
    method BeginSubmit() returns (sent: Option<PostBody>)
      modifies this
      ensures old(CanSubmit()) ==> sent.Some?
      ensures if AllSpace(old(title)) then
          sent == None && message == Some(TitleRequiredMessage) && submitting == old(submitting)
        else
          sent == Some(BodyOf(title, description, status, tags, files)) && message == None && submitting
      ensures title == old(title) && description == old(description) && status == old(status)
      ensures tags == old(tags) && files == old(files)
      ensures query == old(query) && suggestions == old(suggestions)
    {
      if AllSpace(title) {
        message := Some(TitleRequiredMessage);
        return None;
      }
      submitting := true;
      message := None;
      sent := Some(BodyOf(title, description, status, tags, files));
    }

    /** `onSubmit` after its request: 401 asks the user to log in, another failure
        shows the response text, success shows the created message and navigates
        to the new work; a thrown error shows its message. Submitting always ends. */
    method FinishSubmit(reply: Reply<CreatedWork>) returns (navigateTo: Option<string>)
      modifies this
      ensures !submitting
      ensures message == Some(SubmitMessage(reply))
      ensures navigateTo.Some? <==> reply.Response? && IsOk(reply.status) && reply.body.json.Parsed?
      ensures navigateTo.Some? ==>
        navigateTo.value == "/works/" + OrElse(reply.body.json.value.workId, reply.body.json.value.id)
      ensures title == old(title) && tags == old(tags) && files == old(files)
      ensures query == old(query) && suggestions == old(suggestions)
      ensures description == old(description) && status == old(status)
    {
      navigateTo := None;
      match reply {
        case Rejected(e) =>
          message := Some(OrElse(e, GenericErrorMessage));
        case Response(status, body) =>
          if status == 401 {
            message := Some(LoginRequiredMessage);
          } else if !IsOk(status) {
            message := Some(body.text);
          } else {
            match body.json {
              case Parsed(work) =>
                message := Some(CreatedMessage);
                navigateTo := Some("/works/" + OrElse(work.workId, work.id));
              case Unparsable(e) =>
                message := Some(OrElse(e, GenericErrorMessage));
            }
          }
      }
      submitting := false;
    }
  }

  /** The message a finished submission leaves: the log-in prompt for 401, the
      response text for another failure status, the created message on success,
      and a thrown error's message (or the generic one) otherwise. */
  function SubmitMessage(reply: Reply<CreatedWork>): (m: string)
    ensures reply.Response? && reply.status == 401 ==> m == LoginRequiredMessage
    ensures reply.Response? && reply.status != 401 && !IsOk(reply.status) ==> m == reply.body.text
    ensures reply.Response? && IsOk(reply.status) && reply.body.json.Parsed? ==> m == CreatedMessage
    ensures reply.Response? && IsOk(reply.status) && reply.body.json.Unparsable? ==>
      m == if reply.body.json.error != "" then reply.body.json.error else GenericErrorMessage
    ensures reply.Rejected? ==> m == if reply.error != "" then reply.error else GenericErrorMessage
    ensures reply.Rejected? ==> m != ""
  {
    match reply
    case Rejected(e) => OrElse(e, GenericErrorMessage)
    case Response(status, body) =>
      if status == 401 then LoginRequiredMessage
      else if !IsOk(status) then body.text
      else match body.json
        case Parsed(_) => CreatedMessage
        case Unparsable(e) => OrElse(e, GenericErrorMessage)
  }
}
