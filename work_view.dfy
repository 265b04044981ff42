/** The work page of src/pages/WorkView.tsx: the hero image and the load that a
    cleanup can cancel. */
module WorkView {
  import opened Wrappers
  import opened Http

  /** One media item; "" stands for an absent `fileurl`. */
  datatype Media = Media(fileurl: string)

  /** The part of the work detail the page's logic reads; "" for an absent thumbnail. */
  datatype WorkDetail = WorkDetail(media: seq<Media>, thumbnail: string)

  const LoadFailedMessage: string := "Failed to load"

  /** `hero`: the active media item's URL when the list is non-empty and that item
      has one; otherwise the thumbnail; otherwise "". Always a string. */
  function Hero(data: Option<WorkDetail>, active: int): (h: string)
    ensures data.None? ==> h == ""
    ensures data.Some? && 0 <= active < |data.value.media| && data.value.media[active].fileurl != "" ==>
              h == data.value.media[active].fileurl
    ensures data.Some? && !(0 <= active < |data.value.media| && data.value.media[active].fileurl != "") ==>
              h == data.value.thumbnail
    ensures h == "" || (data.Some? && (h == data.value.thumbnail
                                      || exists i :: 0 <= i < |data.value.media| && data.value.media[i].fileurl == h))
  {
    match data
    case None => ""
    case Some(w) =>
      if |w.media| > 0 then
        var url := if 0 <= active < |w.media| then w.media[active].fileurl else "";
        OrElse(OrElse(url, w.thumbnail), "")
      else OrElse(w.thumbnail, "")
  }

  /** What `apiGet` yields: the parsed work after a 2xx reply, and otherwise the
      message of what it throws (the response text for a failure status, the
      parse error, the rejection), with the page's fallback when that is empty. */
  function LoadResult(reply: Reply<WorkDetail>): (r: Result<WorkDetail>)
    ensures r.Success? <==> reply.Response? && IsOk(reply.status) && reply.body.json.Parsed?
    ensures r.Success? ==> r.value == reply.body.json.value
    ensures reply.Response? && !IsOk(reply.status) ==> r == Failure(OrElse(reply.body.text, LoadFailedMessage))
    ensures reply.Response? && IsOk(reply.status) && reply.body.json.Unparsable? ==>
              r == Failure(OrElse(reply.body.json.error, LoadFailedMessage))
    ensures reply.Rejected? ==> r == Failure(OrElse(reply.error, LoadFailedMessage))
    ensures r.Failure? ==> r.error != ""
  {
    match reply
    case Rejected(e) => Failure(OrElse(e, LoadFailedMessage))
    case Response(status, body) =>
      if !IsOk(status) then Failure(OrElse(body.text, LoadFailedMessage))
      else match body.json
        case Parsed(w) => Success(w)
        case Unparsable(e) => Failure(OrElse(e, LoadFailedMessage))
  }

  /** The `cancelled` flag one run of the effect closes over. */
  class LoadRun {
    var cancelled: bool

    constructor ()
      ensures !cancelled
    {
      cancelled := false;
    }

    /** The effect's cleanup, run when `id` changes or the page unmounts. */
    method Cancel()
      modifies this
      ensures cancelled
    {
      cancelled := true;
    }
  }

  class WorkPage {
    var data: Option<WorkDetail>
    var loading: bool
    var error: Option<string>
    var active: int

    constructor ()
      ensures data == None && loading && error == None && active == 0
    {
      data, loading, error, active := None, true, None, 0;
    }

    /** The effect up to its request: a fresh, uncancelled run; loading starts. */
    method StartLoad() returns (run: LoadRun)
      modifies this
      ensures fresh(run) && !run.cancelled
      ensures loading
      ensures data == old(data) && error == old(error) && active == old(active)
    {
      run := new LoadRun();
      loading := true;
    }

    /** The effect after its request: a cancelled run writes nothing; otherwise
        the work or the error is stored and loading ends. */
    method SettleLoad(run: LoadRun, reply: Reply<WorkDetail>)
      modifies this
      ensures run.cancelled ==> data == old(data) && error == old(error) && loading == old(loading)
      ensures !run.cancelled ==> !loading
      ensures !run.cancelled && LoadResult(reply).Success? ==>
                data == Some(LoadResult(reply).value) && error == old(error)
      ensures !run.cancelled && LoadResult(reply).Failure? ==>
                error == Some(LoadResult(reply).error) && data == old(data)
      ensures active == old(active)
    {
      var result := LoadResult(reply);
      match result {
        case Success(w) =>
          if !run.cancelled {
            data := Some(w);
          }
        case Failure(e) =>
          if !run.cancelled {
            error := Some(e);
          }
      }
      if !run.cancelled {
        loading := false;
      }
    }
  }

  /** Switching to another work cancels the first run, so its late reply is
      ignored: whatever `first` was, only the second run's reply lands. */
  method SwitchWork(page: WorkPage, first: Reply<WorkDetail>, second: Reply<WorkDetail>)
    modifies page
    ensures LoadResult(second).Success? ==>
              page.data == Some(LoadResult(second).value) && page.error == old(page.error)
    ensures LoadResult(second).Failure? ==>
              page.error == Some(LoadResult(second).error) && page.data == old(page.data)
    ensures !page.loading && page.active == old(page.active)
  {
    var run1 := page.StartLoad();
    run1.Cancel();
    var run2 := page.StartLoad();
    page.SettleLoad(run1, first);
    page.SettleLoad(run2, second);
  }
}
