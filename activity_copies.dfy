/** How the two BLEAct copies relate. */
module ActivityCopies {
  import opened Options
  import opened ActivityCommon
  import opened Service
  import opened LineHistory
  import Wear = WearActivity
  import Mobile = MobileActivity

  /** Whatever the wear copy lets through, the mobile copy lets through. */
  lemma MobileCheckIsLaxer(serviceSet: bool, bound: bool, btEnabled: bool)
    ensures Wear.EnableCheck(serviceSet, bound, btEnabled).None? ==> Mobile.EnableCheck(serviceSet, btEnabled).None?
    ensures bound ==> Wear.EnableCheck(serviceSet, bound, btEnabled) == Mobile.EnableCheck(serviceSet, btEnabled)
  {
  }

  /**
   * The same session on both copies: start the service, bind it, stop it,
   * then press search with Bluetooth on.  The mobile copy still holds the
   * stopped service and starts a scan on its helper; the wear copy refuses
   * with "Service Not Bound" and its helper stays idle.
   */
  method StoppedServiceStillUsedOnMobile() returns (mobileScanning: bool, wearScanning: bool, wearText: string)
    ensures mobileScanning
    ensures !wearScanning
    ensures wearText == NOT_BOUND + [NEW_LINE]
  {
    mobileScanning := MobileSession();
    wearScanning, wearText := WearSession();
  }

  /** The session on the mobile copy: whether its helper is scanning at the end. */
  method MobileSession() returns (scanning: bool)
    ensures scanning
  {
    var service := new BTService();
    service.OnStartCommand();
    var act := new Mobile.BLEAct();
    act.StartService();
    act.OnServiceConnected(service, 1);
    act.StopService();
    assert act.boundService == service && service.helper != null;
    act.OnSearchClick(true);
    scanning := service.helper.isScanning;
  }

  /** The session on the wear copy: whether its helper is scanning, and the text shown, at the end. */
  method WearSession() returns (scanning: bool, text: string)
    ensures !scanning
    ensures text == NOT_BOUND + [NEW_LINE]
  {
    var service := new BTService();
    service.OnStartCommand();
    var act := new Wear.BLEAct();
    act.StartService();
    act.OnServiceConnected(service, 2);
    act.StopService(true);
    assert act.boundService == service && service.helper != null && act.text == "" && !act.isBound;
    act.OnSearchClick(true);
    scanning := service.helper.isScanning;
    text := act.text;
    FirstMessage(NOT_BOUND, Wear.MAX_LINE);
  }
}
