/** The builder: an engineer makes a fresh builder for each computer and has
    it configure memory, disk and graphics card one step at a time. */
module Builder {
  import opened Wrappers
  import opened Text

  /** `f'{v}'` of a field that is either unset (`None`) or a number: a
      non-negative number prints as the decimal digits that denote it, a
      negative one with a leading `-`. */
  function FormatInt(v: Option<int>): (r: string)
    ensures v.None? ==> r == "None"
    ensures v.Some? ==> |r| > 0 && (r[0] == '-' <==> v.value < 0)
    ensures v.Some? && v.value >= 0 ==>
      (forall i :: 0 <= i < |r| ==> IsDigit(r[i])) && DigitsValue(r) == v.value
  {
    match v
    case None => "None"
    case Some(n) =>
      if n >= 0 then NatToStringRoundTrip(n); IntToString(n) else IntToString(n)
  }

  function FormatStr(v: Option<string>): string
  {
    match v
    case None => "None"
    case Some(s) => s
  }

  /** The four lines of `str(computer)`, in order. */
  function Info(serial: string, memory: Option<int>, hdd: Option<int>, gpu: Option<string>): (r: seq<string>)
    ensures |r| == 4
  {
    ["Serial Number: " + serial,
     "Memory: " + FormatInt(memory) + "GB",
     "Hard Disk: " + FormatInt(hdd) + "GB",
     "Graphics Card: " + FormatStr(gpu)]
  }

  lemma FormatIntOneLine(v: Option<int>)
    ensures '\n' !in FormatInt(v)
  {
    if v.Some? && v.value < 0 {
      var s := FormatInt(v);
      assert s == "-" + NatToString(-v.value);
      forall i | 0 <= i < |s| ensures s[i] != '\n' {
        if i > 0 {
          assert s[i] == NatToString(-v.value)[i - 1];
        }
      }
    }
  }

  /** The text of a computer splits back into its four lines, as long as the
      serial number and graphics card are themselves one line each. */
  lemma {:induction false} InfoLinesRecovered(serial: string, memory: Option<int>, hdd: Option<int>, gpu: Option<string>)
    requires '\n' !in serial && '\n' !in FormatStr(gpu)
    ensures Split(Join(Info(serial, memory, hdd, gpu), "\n"), '\n') == Info(serial, memory, hdd, gpu)
  {
    var info := Info(serial, memory, hdd, gpu);
    FormatIntOneLine(memory);
    FormatIntOneLine(hdd);
    forall i | 0 <= i < 4 ensures '\n' !in info[i] {
      if i == 0 {
        assert info[0] == "Serial Number: " + serial;
      } else if i == 1 {
        assert info[1] == "Memory: " + FormatInt(memory) + "GB";
      } else if i == 2 {
        assert info[2] == "Hard Disk: " + FormatInt(hdd) + "GB";
      } else {
        assert info[3] == "Graphics Card: " + FormatStr(gpu);
      }
    }
    SplitJoin(info, '\n');
  }

  class Computer {
    var serial: string
    /** In gigabytes. */
    var memory: Option<int>
    /** In gigabytes. */
    var hdd: Option<int>
    var gpu: Option<string>

    /** `Computer(serial_number)`: nothing configured yet. */
    constructor (serialNumber: string)
      ensures serial == serialNumber && memory == None && hdd == None && gpu == None
    {
      serial := serialNumber;
      memory := None;
      hdd := None;
      gpu := None;
    }

    /** `str(computer)`: the four lines joined by newlines. */
    function ToString(): string
      reads this
    {
      Join(Info(serial, memory, hdd, gpu), "\n")
    }
  }

  /** The serial number every builder stamps on its computer. */
  const SerialNumber: string := "AG23385193"

  class ComputerBuilder {
    const computer: Computer

    /** `ComputerBuilder()`: a new computer with the fixed serial number. */
    constructor ()
      ensures fresh(computer)
      ensures computer.serial == SerialNumber
      ensures computer.memory == None && computer.hdd == None && computer.gpu == None
    {
      computer := new Computer(SerialNumber);
    }

    method ConfigureMemory(amount: int)
      modifies computer
      ensures computer.memory == Some(amount)
      ensures computer.serial == old(computer.serial) && computer.hdd == old(computer.hdd)
      ensures computer.gpu == old(computer.gpu)
    {
      computer.memory := Some(amount);
    }

    method ConfigureHdd(amount: int)
      modifies computer
      ensures computer.hdd == Some(amount)
      ensures computer.serial == old(computer.serial) && computer.memory == old(computer.memory)
      ensures computer.gpu == old(computer.gpu)
    {
      computer.hdd := Some(amount);
    }

    method ConfigureGpu(gpuModel: string)
      modifies computer
      ensures computer.gpu == Some(gpuModel)
      ensures computer.serial == old(computer.serial) && computer.memory == old(computer.memory)
      ensures computer.hdd == old(computer.hdd)
    {
      computer.gpu := Some(gpuModel);
    }
  }

  datatype BuilderError = AttributeError(message: string)

  class HardwareEngineer {
    var builder: ComputerBuilder?

    constructor ()
      ensures builder == null
    {
      builder := null;
    }

    /** `construct_computer(memory, hdd, gpu)`: a fresh builder makes a fresh
        computer and configures it; no computer made before is touched. */
    method ConstructComputer(memory: int, hdd: int, gpu: string)
      modifies this
      ensures builder != null && fresh(builder) && fresh(builder.computer)
      ensures CurrentComputer() == Ok(builder.computer)
      ensures builder.computer.serial == SerialNumber
      ensures builder.computer.memory == Some(memory) && builder.computer.hdd == Some(hdd)
      ensures builder.computer.gpu == Some(gpu)
    {
      var b := new ComputerBuilder();
      builder := b;
      b.ConfigureMemory(memory);
      b.ConfigureHdd(hdd);
      b.ConfigureGpu(gpu);
    }

    /** The `computer` property: the current builder's computer, or the
        `AttributeError` of looking it up on `None` before any computer was
        constructed. */
    function CurrentComputer(): (r: Result<Computer, BuilderError>)
      reads this
      ensures r.Ok? <==> builder != null
      ensures r.Ok? ==> r.value == builder.computer
      ensures r.Err? ==> r.error == AttributeError("'NoneType' object has no attribute 'computer'")
    {
      if builder == null then Err(AttributeError("'NoneType' object has no attribute 'computer'"))
      else Ok(builder.computer)
    }
  }

  /** Two constructions give two distinct computers, and the second leaves
      the first as it was. */
  method ConstructTwice() returns (first: Computer, second: Computer)
    ensures first != second
    ensures first.memory == Some(8) && first.hdd == Some(500) && first.gpu == Some("GeForce GTX 650 Ti")
    ensures second.memory == Some(16) && second.hdd == Some(1000) && second.gpu == Some("GeForce GTX 1080")
  {
    var engineer := new HardwareEngineer();
    engineer.ConstructComputer(8, 500, "GeForce GTX 650 Ti");
    first := engineer.builder.computer;
    engineer.ConstructComputer(16, 1000, "GeForce GTX 1080");
    second := engineer.builder.computer;
  }

  /** The lines of the demonstration's computer. */
  lemma DemoInfo()
    ensures Info(SerialNumber, Some(8), Some(500), Some("GeForce GTX 650 Ti"))
      == ["Serial Number: AG23385193", "Memory: 8GB", "Hard Disk: 500GB", "Graphics Card: GeForce GTX 650 Ti"]
  {
    assert FormatInt(Some(8)) == "8";
    assert FormatInt(Some(500)) == "500" by {
      assert NatToString(500) == NatToString(50) + ['0'];
      assert NatToString(50) == NatToString(5) + ['0'];
    }
    assert "Serial Number: " + SerialNumber == "Serial Number: AG23385193";
    assert "Memory: " + "8" + "GB" == "Memory: 8GB";
    assert "Hard Disk: " + "500" + "GB" == "Hard Disk: 500GB";
    assert "Graphics Card: " + "GeForce GTX 650 Ti" == "Graphics Card: GeForce GTX 650 Ti";
  }

  /** The demonstration's computer and the text it prints: its four lines
      joined by newlines, which splitting on newlines gives back. */
  method Demo() returns (text: string)
    ensures text == Join(["Serial Number: AG23385193", "Memory: 8GB",
      "Hard Disk: 500GB", "Graphics Card: GeForce GTX 650 Ti"], "\n")
    ensures Split(text, '\n') == ["Serial Number: AG23385193", "Memory: 8GB",
      "Hard Disk: 500GB", "Graphics Card: GeForce GTX 650 Ti"]
  {
    var engineer := new HardwareEngineer();
    engineer.ConstructComputer(8, 500, "GeForce GTX 650 Ti");
    var computer := engineer.builder.computer;
    text := computer.ToString();
    InfoLinesRecovered(computer.serial, computer.memory, computer.hdd, computer.gpu);
    DemoInfo();
  }
}
