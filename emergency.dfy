/**
 * The emergency form: the reporter shares a location, picks an emergency type, may attach
 * photos and describe the situation, and sends an alert. Sending is simulated: an
 * accepted submission shows a progress message and, when its timer fires, a success
 * message and a cleared form.
 *
 * The browser's geolocation, the file picker, object URLs and timers are parameters or
 * separate methods: `LocationAnswered` is the geolocation callback and `AlertSent` the
 * timer callback.
 */
module Emergency {
  import opened Js

  datatype Position = Position(latitude: real, longitude: real)

  /** An attached file (a handle standing for the browser's `File`) and its preview URL. */
  datatype Photo = Photo(file: nat, preview: string)

  /** What the geolocation request answers. */
  datatype GeoAnswer = Located(position: Position) | GeoFailed | Unsupported

  const LocatedMessage: string := "Location successfully captured"
  const GeoFailedMessage: string := "Unable to get your location. Please try again."
  const UnsupportedMessage: string := "Geolocation is not supported by your browser."
  const NoLocationMessage: string := "Please share your location first"
  const NoTypeMessage: string := "Please select emergency type"
  const SendingMessage: string := "Sending emergency alert..."
  const SentMessage: string := "Emergency alert sent successfully! Help is on the way."

  /** `s.filter((_, i) => i !== index)` */
  function RemoveAt<T>(s: seq<T>, index: int): (r: seq<T>)
    ensures |r| <= |s|
    decreases |s|
  {
    if s == [] then []
    else (if index == 0 then [] else [s[0]]) + RemoveAt(s[1..], index - 1)
  }

  /** An index out of range removes nothing. */
  lemma {:induction false} RemoveAtOutOfRange<T>(s: seq<T>, index: int)
    requires !(0 <= index < |s|)
    ensures RemoveAt(s, index) == s
    decreases |s|
  {
    if s != [] {
      RemoveAtOutOfRange(s[1..], index - 1);
      assert [s[0]] + s[1..] == s;
    }
  }

  /** An index in range takes out exactly that element and keeps the order of the others. */
  lemma {:induction false} RemoveAtInRange<T>(s: seq<T>, index: int)
    requires 0 <= index < |s|
    ensures RemoveAt(s, index) == s[..index] + s[index + 1..]
    decreases |s|
  {
    var tail := s[1..];
    if index == 0 {
      RemoveAtOutOfRange(tail, -1);
      assert RemoveAt(s, index) == RemoveAt(tail, -1);
    } else {
      RemoveAtInRange(tail, index - 1);
      assert RemoveAt(s, index) == [s[0]] + (tail[..index - 1] + tail[index..]);
      assert s[..index] == [s[0]] + tail[..index - 1];
      assert s[index + 1..] == tail[index..];
    }
  }

  /** The photos made from the selected files, in order, each with its preview URL. */
  function NewPhotos(files: seq<nat>, objectUrl: nat -> string): (ps: seq<Photo>)
    ensures |ps| == |files|
    ensures forall i :: 0 <= i < |files| ==> ps[i].file == files[i] && ps[i].preview == objectUrl(files[i])
  {
    seq(|files|, i requires 0 <= i < |files| => Photo(files[i], objectUrl(files[i])))
  }

  /** The form's state. */
  class EmergencyForm {
    var location: Option<Position>
    var loading: bool
    var photos: seq<Photo>
    var message: string
    var emergencyType: string
    var description: string

    constructor()
      ensures location == None && !loading && photos == [] && message == ""
      ensures emergencyType == "" && description == ""
    {
      location := None;
      loading := false;
      photos := [];
      message := "";
      emergencyType := "";
      description := "";
    }

    /** The submit button is disabled while sending or before a location is known. */
    predicate SubmitDisabled()
      reads this
      ensures !SubmitDisabled() ==> location.Some? && !loading
    {
      loading || location.None?
    }

    /** `getLocation` together with its callback: a position is stored; a failure only sets a message. */
    method LocationAnswered(answer: GeoAnswer)
      modifies this
      ensures !loading
      ensures answer.Located? ==> location == Some(answer.position) && message == LocatedMessage
      ensures answer.GeoFailed? ==> location == old(location) && message == GeoFailedMessage
      ensures answer.Unsupported? ==> location == old(location) && message == UnsupportedMessage
      ensures photos == old(photos) && emergencyType == old(emergencyType) && description == old(description)
    {
      loading := true;
      match answer {
        case Located(position) =>
          location := Some(position);
          loading := false;
          message := LocatedMessage;
        case GeoFailed =>
          message := GeoFailedMessage;
          loading := false;
        case Unsupported =>
          message := UnsupportedMessage;
          loading := false;
      }
    }

    /** `handlePhotoUpload`: the selected files are appended, in order, after the photos already attached. */
    method HandlePhotoUpload(files: seq<nat>, objectUrl: nat -> string)
      modifies this
      ensures photos == old(photos) + NewPhotos(files, objectUrl)
      ensures location == old(location) && loading == old(loading) && message == old(message)
      ensures emergencyType == old(emergencyType) && description == old(description)
    {
      var added := NewPhotos(files, objectUrl);
      photos := photos + added;
    }

    /** `removePhoto`: drop the photo at `index`; an index out of range changes nothing. */
    method RemovePhoto(index: int)
      modifies this
      ensures photos == RemoveAt(old(photos), index)
      ensures 0 <= index < |old(photos)| ==> photos == old(photos)[..index] + old(photos)[index + 1..]
      ensures !(0 <= index < |old(photos)|) ==> photos == old(photos)
      ensures location == old(location) && loading == old(loading) && message == old(message)
      ensures emergencyType == old(emergencyType) && description == old(description)
    {
      if 0 <= index < |photos| {
        RemoveAtInRange(photos, index);
      } else {
        RemoveAtOutOfRange(photos, index);
      }
      photos := RemoveAt(photos, index);
    }

    /** The "Remove All" button. */
    method RemoveAll()
      modifies this
      ensures photos == []
      ensures location == old(location) && loading == old(loading) && message == old(message)
      ensures emergencyType == old(emergencyType) && description == old(description)
    {
      photos := [];
    }

    /**
     * `handleSubmit`: without a location, or without a type, only a message is set;
     * otherwise sending starts. Returns whether it started.
     */
    method HandleSubmit() returns (sending: bool)
      modifies this
      ensures sending <==> old(location).Some? && old(emergencyType) != ""
      ensures old(location).None? ==> message == NoLocationMessage && loading == old(loading)
      ensures old(location).Some? && old(emergencyType) == "" ==> message == NoTypeMessage && loading == old(loading)
      ensures sending ==> loading && message == SendingMessage && SubmitDisabled()
      ensures location == old(location) && photos == old(photos)
      ensures emergencyType == old(emergencyType) && description == old(description)
    {
      if location.None? {
        message := NoLocationMessage;
        return false;
      }
      if emergencyType == "" {
        message := NoTypeMessage;
        return false;
      }
      loading := true;
      message := SendingMessage;
      sending := true;
    }

    /** The timer of an accepted submission: success, and the form is cleared except for the location. */
    method AlertSent()
      modifies this
      ensures message == SentMessage && !loading
      ensures description == "" && emergencyType == "" && photos == []
      ensures location == old(location)
    {
      message := SentMessage;
      loading := false;
      description := "";
      emergencyType := "";
      photos := [];
    }
  }
}
