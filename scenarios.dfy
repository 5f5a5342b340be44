/** Client walks through the controller, using only the contracts of its commands. */
module Scenarios {
  import opened Wrappers
  import MessageLog
  import Endpoint
  import Capabilities
  import Controller

  /** Load the library, log in, reserve: after each step the window's controls
      follow the endpoint's state. */
  method LifecycleScenario()
  {
    var c := new Controller.MainController(Endpoint.EndpointState(false, false, false, None));
    var w := new Controller.Window();
    c.SetView(w);
    assert w.enabled == Capabilities.Project(false, false, false);

    c.AcquireLibrary(Endpoint.Reply(true, (), Endpoint.EndpointState(true, false, false, None)));
    assert !w.enabled.acquire && w.enabled.release;

    c.Login(Endpoint.Reply(true, (), Endpoint.EndpointState(true, true, false, None)));
    assert c.lims.trace == [Endpoint.LoadLibrary, Endpoint.Connect("", "", "")];
    assert w.enabled.reserve && !w.enabled.hostname && !w.enabled.username && !w.enabled.password;

    c.ReserveInstrument(Endpoint.Reply(true, (), Endpoint.EndpointState(true, true, true, None)));
    assert w.enabled.openDoor;
  }

  /** Releasing the library of a reserved instrument brings every control back to
      the initial projection. */
  method ReleaseScenario()
  {
    var c := new Controller.MainController(Endpoint.EndpointState(true, true, true, None));
    var w := new Controller.Window();
    c.SetView(w);
    assert w.enabled.openDoor && !w.enabled.acquire;

    c.ReleaseLibrary(Endpoint.Reply(true, (), Endpoint.EndpointState(false, false, false, None)));
    assert w.enabled == Capabilities.Project(false, false, false);
    assert w.messages == "COM object released.\r\n";
  }

  /** A failed login with a diagnostic shows the diagnostic's two lines. */
  method FailedLoginScenario()
  {
    var c := new Controller.MainController(Endpoint.EndpointState(true, false, false, None));
    var w := new Controller.Window();
    c.SetView(w);

    var refused := Endpoint.Diagnostic("E_ACCESS", "Wrong password");
    c.Login(Endpoint.Reply(false, (), Endpoint.EndpointState(true, false, false, Some(refused))));
    assert w.messages == MessageLog.Render(["E_ACCESS", "Wrong password"]);
    assert w.enabled.connect;
  }

  /** A failed logout leaves the box alone but still resynchronises the controls. */
  method FailedLogoutScenario()
  {
    var c := new Controller.MainController(Endpoint.EndpointState(true, true, false, None));
    var w := new Controller.Window();
    c.SetView(w);
    var before := w.messages;

    c.Logout(Endpoint.Reply(false, (), Endpoint.EndpointState(true, true, false, None)));
    assert w.messages == before;
    assert w.enabled.disconnect && !w.enabled.connect;
  }

  /** A cancelled export writes only "Export cancelled." and makes no endpoint call;
      a headless controller makes no call for a login either. */
  method CancelledExportScenario(reply: Endpoint.Reply<()>)
  {
    var c := new Controller.MainController(Endpoint.EndpointState(true, true, true, None));
    c.Login(reply);
    assert c.lims.trace == [];

    var w := new Controller.Window();
    c.SetView(w);
    c.ExportExperiment(None, reply);
    assert w.messages == "Export cancelled.\r\n";
    assert c.lims.trace == [] && c.exportFileName == "";
  }
}
