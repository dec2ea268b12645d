/**
  The add / edit song dialog: what opening it loads, removing a kept image,
  and submitting, which uploads the newly chosen image files and assembles the
  record to save. An upload is a function from a file to its download URL, or
  to nothing when it fails.
*/
module SongModal {

  import opened Wrappers
  import opened Songs

  datatype Mode = Add | Edit

  /** The message shown when a submit would save a song without images. */
  const NoImageError: string := "no image"
  /** The message shown when an upload fails. */
  const SaveError: string := "save failed"

  /** `filter((_, idx) => idx != i)`: every element whose index is not `i`. */
  function WithoutIndex(s: seq<string>, i: int): (r: seq<string>)
    ensures |r| == if 0 <= i < |s| then |s| - 1 else |s|
    ensures forall x :: x in r ==> x in s
  {
    if s == [] then []
    else WithoutIndex(s[..|s| - 1], i) + (if |s| - 1 != i then [s[|s| - 1]] else [])
  }

  /** An index outside the list removes nothing. */
  lemma {:induction false} WithoutIndexOutside(s: seq<string>, i: int)
    requires !(0 <= i < |s|)
    ensures WithoutIndex(s, i) == s
  {
    if s != [] {
      var n := |s|;
      WithoutIndexOutside(s[..n - 1], i);
      assert s[..n - 1] + [s[n - 1]] == s;
    }
  }

  /** An index inside the list removes exactly that element. */
  lemma {:induction false} WithoutIndexInside(s: seq<string>, i: int)
    requires 0 <= i < |s|
    ensures WithoutIndex(s, i) == s[..i] + s[i + 1..]
  {
    var n := |s|;
    var front := s[..n - 1];
    if i == n - 1 {
      WithoutIndexOutside(front, i);
      assert s[..i] + s[i + 1..] == front;
    } else {
      WithoutIndexInside(front, i);
      assert s[..i] + s[i + 1..] == (front[..i] + front[i + 1..]) + [s[n - 1]];
    }
  }

  /** Removing by index drops exactly that element and keeps the others in
      order; an index outside the list changes nothing. */
  lemma WithoutIndexSpec(s: seq<string>, i: int)
    ensures 0 <= i < |s| ==> WithoutIndex(s, i) == s[..i] + s[i + 1..]
    ensures !(0 <= i < |s|) ==> WithoutIndex(s, i) == s
  {
    if 0 <= i < |s| {
      WithoutIndexInside(s, i);
    } else {
      WithoutIndexOutside(s, i);
    }
  }

  /** The images an edited song starts with: its image list when it is an
      array (even an empty one), else its single legacy image if set, else none. */
  function InitialImages(song: Song): (r: seq<string>)
    ensures song.tabUrls.Some? ==> r == song.tabUrls.value
    ensures song.tabUrls.None? && song.tabUrl != "" ==> r == [song.tabUrl]
    ensures song.tabUrls.None? && song.tabUrl == "" ==> r == []
  {
    if song.tabUrls.Some? then song.tabUrls.value
    else if song.tabUrl != "" then [song.tabUrl]
    else []
  }

  /** The record saved for the form fields, the kept images and the uploaded
      ones, stamped with `createdAt` when the dialog adds a song. */
  function AssembleRecord(title: string, artist: string, sourceUrl: string,
                          existing: seq<string>, uploaded: seq<string>,
                          mode: Mode, createdAt: string): (r: SongRecord)
    requires existing + uploaded != []
    ensures |r.tabUrls| == |existing| + |uploaded|
    ensures r.tabUrl == r.tabUrls[0]
  {
    var finalTabUrls := existing + uploaded;
    SongRecord(title, artist, sourceUrl, |title|, finalTabUrls, finalTabUrls[0],
               if mode == Add then Some(createdAt) else None)
  }

  /** The saved image list is the kept images followed by the uploaded ones,
      its first image is the legacy single image, the title length is the
      title's, and a creation time appears exactly for a new song. */
  lemma AssembleRecordSpec(title: string, artist: string, sourceUrl: string,
                           existing: seq<string>, uploaded: seq<string>,
                           mode: Mode, createdAt: string)
    requires existing + uploaded != []
    ensures var r := AssembleRecord(title, artist, sourceUrl, existing, uploaded, mode, createdAt);
      && r.tabUrls[..|existing|] == existing
      && r.tabUrls[|existing|..] == uploaded
      && r.tabUrl == (if existing != [] then existing[0] else uploaded[0])
      && r.titleLength == |title|
      && r.title == title && r.artist == artist && r.sourceUrl == sourceUrl
      && (r.createdAt.Some? <==> mode == Add)
  {
  }

  /** The upload loop: each selected file in order, stopping at the first
      failure. On success the URLs correspond one to one to the files. */
  method UploadAll(files: seq<string>, upload: string -> Option<string>) returns (urls: Option<seq<string>>)
    ensures urls.Some? <==> forall i :: 0 <= i < |files| ==> upload(files[i]).Some?
    ensures urls.Some? ==> |urls.value| == |files|
    ensures urls.Some? ==> forall i :: 0 <= i < |files| ==> urls.value[i] == upload(files[i]).value
  {
    var uploadedUrls: seq<string> := [];
    var i := 0;
    while i < |files|
      invariant 0 <= i <= |files|
      invariant |uploadedUrls| == i
      invariant forall j :: 0 <= j < i ==> upload(files[j]).Some? && uploadedUrls[j] == upload(files[j]).value
    {
      var downloadUrl := upload(files[i]);
      if downloadUrl.None? {
        return None;
      }
      uploadedUrls := uploadedUrls + [downloadUrl.value];
      i := i + 1;
    }
    return Some(uploadedUrls);
  }

  class Dialog {
    var isOpen: bool
    var mode: Mode
    var title: string
    var artist: string
    var sourceUrl: string
    /** Image files chosen in this session, in the order they will upload. */
    var selectedFiles: seq<string>
    /** Images of the edited song still kept. */
    var existingTabUrls: seq<string>
    var uploading: bool
    var errorMsg: string

    constructor ()
      ensures !isOpen && !uploading && errorMsg == ""
      ensures selectedFiles == [] && existingTabUrls == []
      ensures title == "" && artist == "" && sourceUrl == ""
    {
      isOpen := false;
      mode := Add;
      title := "";
      artist := "";
      sourceUrl := "";
      selectedFiles := [];
      existingTabUrls := [];
      uploading := false;
      errorMsg := "";
    }

    /** Opening: clear the error, the chosen files and the busy flag; editing a
        song loads its fields and images, anything else starts blank. */
    method Open(openMode: Mode, initialData: Option<Song>)
      modifies this
      ensures isOpen && mode == openMode && errorMsg == "" && selectedFiles == [] && !uploading
      ensures openMode == Edit && initialData.Some? ==>
        var song := initialData.value;
        && title == song.title && artist == song.artist && sourceUrl == song.sourceUrl
        && existingTabUrls == InitialImages(song)
      ensures !(openMode == Edit && initialData.Some?) ==>
        title == "" && artist == "" && sourceUrl == "" && existingTabUrls == []
    {
      isOpen := true;
      mode := openMode;
      errorMsg := "";
      selectedFiles := [];
      uploading := false;
      if openMode == Edit && initialData.Some? {
        var song := initialData.value;
        title, artist, sourceUrl := song.title, song.artist, song.sourceUrl;
        if song.tabUrls.Some? {
          existingTabUrls := song.tabUrls.value;
        } else if song.tabUrl != "" {
          existingTabUrls := [song.tabUrl];
        } else {
          existingTabUrls := [];
        }
      } else {
        title, artist, sourceUrl := "", "", "";
        existingTabUrls := [];
      }
    }

    /** Choosing files, already in upload order, clears the error. */
    method SelectFiles(files: seq<string>)
      modifies this`selectedFiles, this`errorMsg
      ensures selectedFiles == files && errorMsg == ""
    {
      selectedFiles := files;
      errorMsg := "";
    }

    /** Dropping the kept image at index `i`. */
    method RemoveExisting(i: int)
      modifies this`existingTabUrls
      ensures existingTabUrls == WithoutIndex(old(existingTabUrls), i)
    {
      existingTabUrls := WithoutIndex(existingTabUrls, i);
    }

    /** Submitting. Without any kept or chosen image: an error and nothing saved.
        Otherwise the chosen files upload in order; if one fails the error is
        shown and nothing is saved; else the assembled record is saved and the
        dialog closes. */
    method Submit(upload: string -> Option<string>, createdAt: string) returns (saved: Option<SongRecord>)
      requires isOpen
      modifies this`errorMsg, this`uploading, this`isOpen
      ensures !uploading
      ensures existingTabUrls == [] && selectedFiles == [] ==>
        saved.None? && errorMsg == NoImageError && isOpen
      ensures saved.Some? ==>
        var r := saved.value;
        && !isOpen && errorMsg == ""
        && r.title == title && r.artist == artist && r.sourceUrl == sourceUrl
        && r.titleLength == |title|
        && |r.tabUrls| == |existingTabUrls| + |selectedFiles|
        && r.tabUrls[..|existingTabUrls|] == existingTabUrls
        && (forall i :: 0 <= i < |selectedFiles| ==>
              upload(selectedFiles[i]).Some? && r.tabUrls[|existingTabUrls| + i] == upload(selectedFiles[i]).value)
        && r.tabUrl == r.tabUrls[0]
        && r.createdAt == (if mode == Add then Some(createdAt) else None)
      ensures (existingTabUrls != [] || selectedFiles != []) ==>
        (saved.Some? <==> forall i :: 0 <= i < |selectedFiles| ==> upload(selectedFiles[i]).Some?)
      ensures (existingTabUrls != [] || selectedFiles != []) && saved.None? ==> errorMsg == SaveError && isOpen
    {
      if |existingTabUrls| == 0 && |selectedFiles| == 0 {
        errorMsg := NoImageError;
        uploading := false;
        return None;
      }
      uploading := true;
      errorMsg := "";
      var uploadedUrls := UploadAll(selectedFiles, upload);
      if uploadedUrls.None? {
        errorMsg := SaveError;
        uploading := false;
        return None;
      }
      var record := AssembleRecord(title, artist, sourceUrl, existingTabUrls, uploadedUrls.value, mode, createdAt);
      saved := Some(record);
      isOpen := false;
      uploading := false;
    }
  }
}
