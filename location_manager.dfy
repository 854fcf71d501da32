/**
 * `LocationManager` (Classes/LocationManager.swift): the authorisation state machine
 * around Core Location and the handler that records the user's latest position.
 *
 * The platform's `CLLocationManager` is reduced to its authorisation status and the two
 * requests the app makes of it, counted or recorded so that a contract can speak of them.
 */
module Locating {
  import opened Wrappers
  import opened Places
  import opened MapModel

  /** `CLAuthorizationStatus`, with room for cases a later platform may add. */
  datatype AuthorizationStatus =
    | NotDetermined
    | Restricted
    | Denied
    | AuthorizedAlways
    | AuthorizedWhenInUse
    | Unrecognized(raw: int)

  /** What `checkAuthorization` does for a status; `Fatal` is the `fatalError` of the default case. */
  datatype AuthorizationAction = RequestWhenInUse | NoAction | StartUpdates | Fatal

  /** The switch of `checkAuthorization`. */
  function ActionFor(status: AuthorizationStatus): (a: AuthorizationAction)
    ensures a == RequestWhenInUse <==> status == NotDetermined
    ensures a == NoAction <==> status == Restricted || status == Denied
    ensures a == StartUpdates <==> status == AuthorizedAlways || status == AuthorizedWhenInUse
    ensures a == Fatal <==> status.Unrecognized?
  {
    match status
    case NotDetermined => RequestWhenInUse
    case Restricted => NoAction
    case Denied => NoAction
    case AuthorizedAlways => StartUpdates
    case AuthorizedWhenInUse => StartUpdates
    case Unrecognized(_) => Fatal
  }

  /** The stored position after a batch of samples: the last one, or the old one for an empty batch. */
  function LatestPosition(current: Coordinate2D, samples: seq<Coordinate2D>): (r: Coordinate2D)
    ensures samples == [] ==> r == current
    ensures samples != [] ==> r == samples[|samples| - 1]
  {
    if samples == [] then current else samples[|samples| - 1]
  }

  /**
   * Last write wins: two batches delivered one after the other leave the same position as
   * one batch holding both.
   */
  lemma LatestPositionComposes(current: Coordinate2D, a: seq<Coordinate2D>, b: seq<Coordinate2D>)
    ensures LatestPosition(LatestPosition(current, a), b) == LatestPosition(current, a + b)
  {
    if b == [] {
      assert a + b == a;
    } else {
      assert (a + b)[|a + b| - 1] == b[|b| - 1];
    }
  }

  /** The part of `CLLocationManager` the app drives. */
  class PlatformLocationManager {
    var authorizationStatus: AuthorizationStatus
    var whenInUseRequests: nat
    var updating: bool

    constructor (status: AuthorizationStatus)
      ensures authorizationStatus == status && whenInUseRequests == 0 && !updating
    {
      authorizationStatus, whenInUseRequests, updating := status, 0, false;
    }

    /** `requestWhenInUseAuthorization()`; the dialog and its answer are the platform's. */
    method RequestWhenInUseAuthorization()
      modifies this
      ensures whenInUseRequests == old(whenInUseRequests) + 1
      ensures authorizationStatus == old(authorizationStatus) && updating == old(updating)
    {
      whenInUseRequests := whenInUseRequests + 1;
    }

    /** `startUpdatingLocation()`. */
    method StartUpdatingLocation()
      modifies this
      ensures updating
      ensures authorizationStatus == old(authorizationStatus) && whenInUseRequests == old(whenInUseRequests)
    {
      updating := true;
    }
  }

  /** `LocationManager`. The view model reference is weak in the source: it may be absent. */
  class LocationManager {
    var manager: PlatformLocationManager?
    var userLocation: Coordinate2D
    var viewModel: MapViewModel?

    /** `init(viewModel:)`: the position starts at (0, 0) and a platform manager is created. */
    constructor (viewModel: MapViewModel, status: AuthorizationStatus)
      ensures this.viewModel == viewModel
      ensures userLocation == Coordinate2D(0.0, 0.0)
      ensures manager != null && fresh(manager)
      ensures manager.authorizationStatus == status && manager.whenInUseRequests == 0 && !manager.updating
    {
      this.viewModel := viewModel;
      userLocation := Coordinate2D(0.0, 0.0);
      manager := new PlatformLocationManager(status);
    }

    /**
     * `checkAuthorization()`: None when there is no platform manager; otherwise the action
     * taken for its status, and exactly that request made of it.
     */
    method CheckAuthorization() returns (action: Option<AuthorizationAction>)
      modifies manager
      ensures manager == old(manager)
      ensures manager == null ==> action.None?
      ensures manager != null ==> action == Some(ActionFor(manager.authorizationStatus))
      ensures manager != null ==>
                manager.authorizationStatus == old(manager.authorizationStatus)
                && manager.whenInUseRequests == old(manager.whenInUseRequests) + (if action == Some(RequestWhenInUse) then 1 else 0)
                && manager.updating == (old(manager.updating) || action == Some(StartUpdates))
    {
      if manager == null {
        return None;
      }
      var a := ActionFor(manager.authorizationStatus);
      match a {
        case RequestWhenInUse => manager.RequestWhenInUseAuthorization();
        case NoAction =>
        case StartUpdates => manager.StartUpdatingLocation();
        case Fatal =>
      }
      action := Some(a);
    }

    /** `locationManagerDidChangeAuthorization(_:)`: re-runs the check. */
    method DidChangeAuthorization() returns (action: Option<AuthorizationAction>)
      modifies manager
      ensures manager == old(manager)
      ensures manager == null ==> action.None?
      ensures manager != null ==> action == Some(ActionFor(manager.authorizationStatus))
      ensures manager != null ==>
                manager.authorizationStatus == old(manager.authorizationStatus)
                && manager.whenInUseRequests == old(manager.whenInUseRequests) + (if action == Some(RequestWhenInUse) then 1 else 0)
                && manager.updating == (old(manager.updating) || action == Some(StartUpdates))
    {
      action := CheckAuthorization();
    }

    /**
     * `locationManager(_:didUpdateLocations:)`: the last sample becomes the stored position
     * and is copied to the view model; an empty batch changes nothing.
     */
    method DidUpdateLocations(samples: seq<Coordinate2D>)
      requires viewModel != null ==> viewModel.Valid()
      modifies this, viewModel
      ensures manager == old(manager) && viewModel == old(viewModel)
      ensures userLocation == LatestPosition(old(userLocation), samples)
      ensures viewModel != null && samples == [] ==> viewModel.State() == old(viewModel.State())
      ensures viewModel != null && samples != [] ==>
                viewModel.State() == old(viewModel.State()).(userLocation := Some(userLocation))
      ensures viewModel != null ==> viewModel.Valid()
    {
      if samples == [] {
        return;
      }
      userLocation := samples[|samples| - 1];
      if viewModel != null {
        viewModel.userLocation := Some(userLocation);
      }
    }
  }
}
