/** The facade: an operating system object that boots its file server and
    process server and forwards requests to them. Both servers have the same
    life cycle, so one `Server` class with a constructor for each models
    them; the request each kind serves alone demands a server of that kind.
    `Sleeping` is a state no operation ever enters. */
module Facade {

  /** `State = Enum('State', 'new running sleeping restart zombie')`. */
  datatype State = New | Running | Sleeping | Restart | Zombie

  class Server {
    const name: string
    var state: State

    /** `FileServer()`. */
    constructor FileServer()
      ensures name == "FileServer" && ToString() == "FileServer" && state == New
    {
      name := "FileServer";
      state := New;
    }

    /** `ProcessServer()`. */
    constructor ProcessServer()
      ensures name == "ProcessServer" && ToString() == "ProcessServer" && state == New
    {
      name := "ProcessServer";
      state := New;
    }

    /** `str(server)`. */
    function ToString(): string
    {
      name
    }

    /** `boot()`: running, whatever the state was. */
    method Boot()
      modifies this
      ensures state == Running
    {
      state := Running;
    }

    /** `kill(restart=True)`: marked for restart, or a zombie when `restart`
        is false. */
    method Kill(restart: bool := true)
      modifies this
      ensures state == (if restart then Restart else Zombie)
    {
      state := if restart then Restart else Zombie;
    }

    /** `create_file(user, name, permissions)`, on the file server: it only
        reports the request, so it changes no state. */
    method CreateFile(user: string, fileName: string, permissions: string)
      requires name == "FileServer"
      ensures state == old(state)
    {
    }

    /** `create_process(user, name)`, on the process server: it only reports
        the request. */
    method CreateProcess(user: string, processName: string)
      requires name == "ProcessServer"
      ensures state == old(state)
    {
    }
  }

  /** The facade. */
  class OperatingSystem {
    const fs: Server
    const ps: Server

    /** `fs` is the file server and `ps` the process server. */
    ghost predicate Valid()
    {
      fs.name == "FileServer" && ps.name == "ProcessServer"
    }

    constructor ()
      ensures Valid()
      ensures fresh(fs) && fresh(ps)
      ensures fs.name == "FileServer" && fs.state == New
      ensures ps.name == "ProcessServer" && ps.state == New
    {
      fs := new Server.FileServer();
      ps := new Server.ProcessServer();
    }

    /** `start()`: boots each of the two servers in turn. */
    method Start()
      modifies fs, ps
      ensures fs.state == Running && ps.state == Running
    {
      var servers := [fs, ps];
      for i := 0 to |servers|
        invariant forall j :: 0 <= j < i ==> servers[j].state == Running
      {
        servers[i].Boot();
      }
      assert servers[0] == fs && servers[1] == ps;
    }

    /** `create_file(...)`: forwarded to the file server; no server changes. */
    method CreateFile(user: string, fileName: string, permissions: string)
      requires Valid()
      ensures fs.state == old(fs.state) && ps.state == old(ps.state)
    {
      fs.CreateFile(user, fileName, permissions);
    }

    /** `create_process(...)`: forwarded to the process server; no server changes. */
    method CreateProcess(user: string, processName: string)
      requires Valid()
      ensures fs.state == old(fs.state) && ps.state == old(ps.state)
    {
      ps.CreateProcess(user, processName);
    }
  }

  /** The demonstration: both servers come up running and stay so while a
      file and a process are requested. */
  method Demo() returns (os: OperatingSystem)
    ensures os.fs.state == Running && os.ps.state == Running
  {
    os := new OperatingSystem();
    os.Start();
    os.CreateFile("foo", "hello", "-rw-r-r");
    os.CreateProcess("bar", "ls /tmp");
  }
}
