/** The prompt form's own state (components/form.tsx): the chosen images
    with their preview URLs, the error banner, and the drag-and-drop
    counter. */
module Form {
  import opened Strings
  import opened Web

  const MaxImages := 5

  /** "You can add at most 5 images", as the form shows it. */
  const TooManyImagesError := "អ្នកអាចបញ្ចូលរូបភាពបានអតិបរមា 5 រូប"

  /** `s.slice(0, end)`: a negative `end` counts back from the end of `s`,
      and an `end` past the end stops at it. */
  function SliceTo<T>(s: seq<T>, end: int): (r: seq<T>)
    ensures 0 <= end ==> r == s[..if end <= |s| then end else |s|]
    ensures end < 0 ==> r == s[..if |s| + end < 0 then 0 else |s| + end]
  {
    var stop := if end < 0 then (if |s| + end < 0 then 0 else |s| + end)
                else if end <= |s| then end else |s|;
    s[..stop]
  }

  /** `s.splice(index, 1)` applied to a copy of `s`: a negative `index`
      counts back from the end, and an index at or past the end removes
      nothing. */
  function RemoveAt<T>(s: seq<T>, index: int): (r: seq<T>)
    ensures |r| == if -|s| <= index < |s| then |s| - 1 else if index < -|s| && s != [] then |s| - 1 else |s|
  {
    var start := if index < 0 then (if |s| + index < 0 then 0 else |s| + index)
                 else if index <= |s| then index else |s|;
    if start < |s| then s[..start] + s[start + 1..] else s
  }

  /** Removing position `i` deletes exactly that element: the ones before
      it stay where they were and the ones after it move down by one. */
  lemma RemoveAtInRange<T>(s: seq<T>, i: int)
    requires 0 <= i < |s|
    ensures |RemoveAt(s, i)| == |s| - 1
    ensures forall j :: 0 <= j < i ==> RemoveAt(s, i)[j] == s[j]
    ensures forall j :: i <= j < |s| - 1 ==> RemoveAt(s, i)[j] == s[j + 1]
    ensures multiset(RemoveAt(s, i)) + multiset{s[i]} == multiset(s)
  {
    assert s == s[..i] + [s[i]] + s[i + 1..];
  }

  /** The part of an incoming batch that `addImages` keeps, given how many
      images the form already holds (lines 59-67). */
  function Admitted(current: nat, files: seq<File>): (r: seq<File>)
    ensures current <= MaxImages ==> current + |r| <= MaxImages
    ensures current <= MaxImages ==> |r| == if current + |files| <= MaxImages then |files| else MaxImages - current
    ensures current <= MaxImages ==> r == files[..|r|]
  {
    if current + |files| > MaxImages then SliceTo(files, MaxImages - current) else files
  }

  /** `files.map((file) => URL.createObjectURL(file))`, with the URL each
      file gets supplied by `objectUrl`. */
  function Previews(objectUrl: File -> string, files: seq<File>): (r: seq<string>)
    ensures |r| == |files|
    ensures forall i :: 0 <= i < |files| ==> r[i] == objectUrl(files[i])
  {
    seq(|files|, i requires 0 <= i < |files| => objectUrl(files[i]))
  }

  /** `files.filter((file) => file.type.startsWith("image/"))` */
  function ImageFiles(files: seq<File>): (r: seq<File>)
    ensures |r| <= |files|
    ensures forall i :: 0 <= i < |r| ==> StartsWith(r[i].mimeType, "image/")
    ensures forall f :: f in files && StartsWith(f.mimeType, "image/") ==> f in r
    ensures forall f :: f in r ==> f in files
  {
    if files == [] then []
    else
      var rest := ImageFiles(files[1..]);
      assert forall f :: f in files ==> f == files[0] || f in files[1..];
      if StartsWith(files[0].mimeType, "image/") then [files[0]] + rest else rest
  }

  /** Filtering keeps the dropped order: filtering two batches one after
      the other equals filtering them joined. */
  lemma {:induction false} ImageFilesConcat(a: seq<File>, b: seq<File>)
    ensures ImageFiles(a + b) == ImageFiles(a) + ImageFiles(b)
  {
    if a != [] {
      var keep := if StartsWith(a[0].mimeType, "image/") then [a[0]] else [];
      assert (a + b)[0] == a[0];
      assert (a + b)[1..] == a[1..] + b;
      assert ImageFiles(a + b) == keep + ImageFiles(a[1..] + b);
      assert ImageFiles(a) == keep + ImageFiles(a[1..]);
      ImageFilesConcat(a[1..], b);
    } else {
      assert a + b == b;
    }
  }

  /** The drag-and-drop bookkeeping: a counter of nested `dragenter`s and
      whether the drop overlay is shown. */
  datatype DragState = DragState(counter: int, dragging: bool)

  datatype DragEvent = Enter | Leave | Drop

  /** Lines 94-119: enter counts up and shows the overlay, leave counts down
      and hides it when the count reaches zero, drop resets both. */
  function DragStep(s: DragState, e: DragEvent): (r: DragState)
    ensures e == Enter ==> r.counter == s.counter + 1 && r.dragging
    ensures e == Leave ==> r.counter == s.counter - 1 && (r.counter == 0 ==> !r.dragging) &&
                           (r.counter != 0 ==> r.dragging == s.dragging)
    ensures e == Drop ==> r == DragState(0, false)
    ensures Consistent(s) && !(e == Leave && s.counter == 0) ==> Consistent(r)
  {
    match e
    case Enter => DragState(s.counter + 1, true)
    case Leave => DragState(s.counter - 1, if s.counter - 1 == 0 then false else s.dragging)
    case Drop => DragState(0, false)
  }

  /** The state after a sequence of events: a run ending in a drop always
      ends reset, whatever came before. */
  function DragRun(s: DragState, events: seq<DragEvent>): (r: DragState)
    ensures events == [] ==> r == s
    ensures events != [] && events[|events| - 1] == Drop ==> r == DragState(0, false)
    decreases |events|
  {
    if events == [] then s else DragRun(DragStep(s, events[0]), events[1..])
  }

  /** The overlay is shown exactly while some entered element has not been
      left yet. */
  predicate Consistent(s: DragState) {
    s.counter >= 0 && (s.dragging <==> s.counter > 0)
  }

  /** No `dragleave` arrives while the counter is zero. */
  predicate LeavesMatched(s: DragState, events: seq<DragEvent>)
    decreases |events|
  {
    events == [] ||
    ((events[0] != Leave || s.counter > 0) && LeavesMatched(DragStep(s, events[0]), events[1..]))
  }

  /** Along any sequence of events in which every leave matches an earlier
      enter, the overlay is shown exactly while the counter is positive. */
  lemma {:induction false} DragRunConsistent(s: DragState, events: seq<DragEvent>)
    requires Consistent(s) && LeavesMatched(s, events)
    ensures Consistent(DragRun(s, events))
    decreases |events|
  {
    if events != [] {
      DragRunConsistent(DragStep(s, events[0]), events[1..]);
    }
  }

  /** Whether a key press in the prompt box submits the form (lines
      135-142): Enter does, on a desktop layout, unless Shift is held. */
  function SubmitsOnKeyDown(key: string, shiftKey: bool, isMobile: bool): (submits: bool)
    ensures submits ==> key == "Enter"
    ensures key == "Enter" ==> (submits <==> !isMobile && !shiftKey)
  {
    key == "Enter" && !isMobile && !shiftKey
  }

  class ImageForm {
    var images: seq<File>
    var previewUrls: seq<string>
    var error: Option<string>
    var isDragging: bool
    var dragCounter: int

    /** Every image has its preview. */
    ghost predicate Valid()
      reads this
    {
      |images| == |previewUrls|
    }

    /** The state the form starts in (lines 25-48). */
    constructor ()
      ensures Valid() && images == [] && previewUrls == [] && error == None
      ensures !isDragging && dragCounter == 0
    {
      images, previewUrls, error := [], [], None;
      isDragging, dragCounter := false, 0;
    }

    /** `addImages` (lines 55-74). */
    method AddImages(files: seq<File>, objectUrl: File -> string)
      requires Valid()
      modifies this
      ensures Valid()
      ensures images == old(images) + Admitted(old(|images|), files)
      ensures previewUrls == old(previewUrls) + Previews(objectUrl, Admitted(old(|images|), files))
      ensures error == if files != [] && old(|images|) + |files| > MaxImages then Some(TooManyImagesError) else old(error)
      ensures old(|images|) <= MaxImages ==> |images| <= MaxImages
      ensures isDragging == old(isDragging) && dragCounter == old(dragCounter)
    {
      if |files| == 0 {
        return;
      }
      var currentImages := images;
      var totalImages := |currentImages| + |files|;
      var batch := files;
      if totalImages > MaxImages {
        error := Some(TooManyImagesError);
        var allowedNewImages := MaxImages - |currentImages|;
        batch := SliceTo(files, allowedNewImages);
        if |batch| == 0 {
          return;
        }
      }
      var newPreviewUrls := Previews(objectUrl, batch);
      previewUrls := previewUrls + newPreviewUrls;
      images := currentImages + batch;
    }

    /** `removeImage` (lines 76-87): the same position leaves both lists. */
    method RemoveImage(index: int)
      requires Valid()
      modifies this
      ensures Valid()
      ensures images == RemoveAt(old(images), index)
      ensures previewUrls == RemoveAt(old(previewUrls), index)
      ensures error == old(error) && isDragging == old(isDragging) && dragCounter == old(dragCounter)
    {
      var newImages := RemoveAt(images, index);
      var newPreviewUrls := RemoveAt(previewUrls, index);
      previewUrls := newPreviewUrls;
      images := newImages;
    }

    /** `handleDragEnter` (lines 94-99). */
    method DragEnter()
      modifies this
      ensures DragState(dragCounter, isDragging) == DragStep(old(DragState(dragCounter, isDragging)), Enter)
      ensures images == old(images) && previewUrls == old(previewUrls) && error == old(error)
    {
      dragCounter := dragCounter + 1;
      isDragging := true;
    }

    /** `handleDragLeave` (lines 101-108). */
    method DragLeave()
      modifies this
      ensures DragState(dragCounter, isDragging) == DragStep(old(DragState(dragCounter, isDragging)), Leave)
      ensures images == old(images) && previewUrls == old(previewUrls) && error == old(error)
    {
      dragCounter := dragCounter - 1;
      if dragCounter == 0 {
        isDragging := false;
      }
    }

    /** `handleDrop` (lines 115-125): resets the drag state and adds the
        dropped files whose type is an image type, in the order dropped. */
    method HandleDrop(files: seq<File>, objectUrl: File -> string)
      requires Valid()
      modifies this
      ensures Valid()
      ensures DragState(dragCounter, isDragging) == DragStep(old(DragState(dragCounter, isDragging)), Drop)
      ensures images == old(images) + Admitted(old(|images|), ImageFiles(files))
      ensures previewUrls == old(previewUrls) + Previews(objectUrl, Admitted(old(|images|), ImageFiles(files)))
      ensures error == if ImageFiles(files) != [] && old(|images|) + |ImageFiles(files)| > MaxImages
                       then Some(TooManyImagesError) else old(error)
    {
      dragCounter := 0;
      isDragging := false;
      if |files| > 0 {
        AddImages(ImageFiles(files), objectUrl);
      }
    }
  }
}
