/**
 * An abstract stand-in for the Drive service the engine calls: a sequence
 * of folder objects, a script of replies that decides how each successive
 * remote call ends (once it is used up, every call succeeds), and the log
 * of calls received. Fresh ids are longer than every id already present.
 */
module Drive {
  import opened Errors

  datatype Folder = Folder(id: string, name: string, parent: string, trashed: bool)

  /**
   * How one remote call ends: normally; with an error; or, for an upload,
   * normally but with the remote reporting the given checksum.
   */
  datatype Reply = Succeed | Fail(error: Error) | Garble(sum: string)

  datatype Request =
    | ListRequest(name: string, parent: string)
    | CreateFolderRequest(name: string, parent: string)
    | UploadRequest(name: string, parent: string)

  /** What a successful upload answers: the file id and the remote md5Checksum. */
  datatype Uploaded = Uploaded(id: string, md5Checksum: string)

  /** The id the store gives to its n-th new object. */
  function FreshId(n: nat): (id: string)
    ensures |id| == n + 1
  {
    seq(n + 1, _ => 'i')
  }

  /** The list query's filter: a non-trashed folder with this name in this parent. */
  predicate IsMatch(f: Folder, name: string, parent: string) {
    f.name == name && f.parent == parent && !f.trashed
  }

  /** The ids the list query answers, in store order. */
  function Matching(folders: seq<Folder>, name: string, parent: string): (ids: seq<string>)
    ensures |ids| <= |folders|
    ensures forall id :: id in ids <==> exists f :: f in folders && f.id == id && IsMatch(f, name, parent)
    decreases |folders|
  {
    if |folders| == 0 then []
    else
      var rest := Matching(folders[1..], name, parent);
      assert forall f :: f in folders <==> f == folders[0] || f in folders[1..];
      if IsMatch(folders[0], name, parent) then [folders[0].id] + rest else rest
  }

  function LongestId(folders: seq<Folder>): (n: nat)
    ensures forall i :: 0 <= i < |folders| ==> |folders[i].id| <= n
    decreases |folders|
  {
    if |folders| == 0 then 0
    else
      var rest := LongestId(folders[1..]);
      assert forall i :: 1 <= i < |folders| ==> folders[i] == folders[1..][i - 1];
      if |folders[0].id| > rest then |folders[0].id| else rest
  }

  function Rest(script: seq<Reply>): seq<Reply> {
    if script == [] then [] else script[1..]
  }

  /** The first `n` calls' worth of the script removed. */
  function Drop(script: seq<Reply>, n: nat): seq<Reply> {
    if n <= |script| then script[n..] else []
  }

  /** The reply the i-th call from now receives. */
  function ReplyAt(script: seq<Reply>, i: nat): Reply {
    if i < |script| then script[i] else Succeed
  }

  lemma DropStep(script: seq<Reply>, n: nat)
    ensures Drop(script, n + 1) == Rest(Drop(script, n))
    ensures (if Drop(script, n) == [] then Succeed else Drop(script, n)[0]) == ReplyAt(script, n)
  {
  }

  /** After one call, the next reply is the script's second. */
  lemma RestNext(script: seq<Reply>)
    ensures (if Rest(script) == [] then Succeed else Rest(script)[0]) == ReplyAt(script, 1)
  {
  }

  class Store {
    var folders: seq<Folder>
    var script: seq<Reply>
    var requests: seq<Request>
    var nextId: nat

    /** Every id present is shorter than the next fresh one. */
    ghost predicate Valid()
      reads this
    {
      forall i :: 0 <= i < |folders| ==> |folders[i].id| <= nextId
    }

    constructor (existing: seq<Folder>, replies: seq<Reply>)
      ensures Valid()
      ensures folders == existing && script == replies && requests == []
    {
      folders := existing;
      script := replies;
      requests := [];
      nextId := LongestId(existing);
    }

    /** The reply the next call receives. */
    function Peek(): Reply
      reads this
    {
      if script == [] then Succeed else script[0]
    }

    method Next(request: Request) returns (reply: Reply)
      modifies this
      ensures reply == old(Peek())
      ensures script == Rest(old(script)) && requests == old(requests) + [request]
      ensures folders == old(folders) && nextId == old(nextId)
    {
      reply := if script == [] then Succeed else script[0];
      script := Rest(script);
      requests := requests + [request];
    }

    /** Files.List for non-trashed folders named `name` in `parent`. */
    method List(name: string, parent: string) returns (r: Result<seq<string>>)
      modifies this
      ensures r == (if old(Peek()).Fail? then Err(old(Peek()).error) else Ok(Matching(folders, name, parent)))
      ensures folders == old(folders) && nextId == old(nextId)
      ensures script == Rest(old(script)) && requests == old(requests) + [ListRequest(name, parent)]
    {
      var reply := Next(ListRequest(name, parent));
      r := if reply.Fail? then Err(reply.error) else Ok(Matching(folders, name, parent));
    }

    /** Files.Create of a folder: a fresh id, and the folder is in the store. */
    method CreateFolder(name: string, parent: string) returns (r: Result<string>)
      requires Valid()
      modifies this
      ensures Valid()
      ensures old(Peek()).Fail? ==> r == Err(old(Peek()).error) && folders == old(folders) && nextId == old(nextId)
      ensures !old(Peek()).Fail? ==>
                r == Ok(FreshId(old(nextId))) && nextId == old(nextId) + 1 &&
                folders == old(folders) + [Folder(r.value, name, parent, false)]
      ensures script == Rest(old(script)) && requests == old(requests) + [CreateFolderRequest(name, parent)]
    {
      var reply := Next(CreateFolderRequest(name, parent));
      if reply.Fail? {
        r := Err(reply.error);
      } else {
        r := Ok(FreshId(nextId));
        folders := folders + [Folder(r.value, name, parent, false)];
        nextId := nextId + 1;
      }
    }

    /** Files.Create with media: a fresh file id and the remote checksum of what arrived. */
    method Upload(name: string, parent: string, content: seq<bv8>, md5: seq<bv8> -> string)
      returns (r: Result<Uploaded>)
      requires Valid()
      modifies this
      ensures Valid() && folders == old(folders)
      ensures old(Peek()).Fail? ==> r == Err(old(Peek()).error) && nextId == old(nextId)
      ensures old(Peek()).Succeed? ==> r == Ok(Uploaded(FreshId(old(nextId)), md5(content)))
      ensures old(Peek()).Garble? ==> r == Ok(Uploaded(FreshId(old(nextId)), old(Peek()).sum))
      ensures !old(Peek()).Fail? ==> nextId == old(nextId) + 1
      ensures script == Rest(old(script)) && requests == old(requests) + [UploadRequest(name, parent)]
    {
      var reply := Next(UploadRequest(name, parent));
      if reply.Fail? {
        r := Err(reply.error);
      } else {
        var sum := if reply.Garble? then reply.sum else md5(content);
        r := Ok(Uploaded(FreshId(nextId), sum));
        nextId := nextId + 1;
      }
    }
  }
}
