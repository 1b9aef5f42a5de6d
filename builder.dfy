/**
 * The builder example: a computer whose parts start as "not defined" and are
 * set one by one through a chain of setters on a builder.
 */
module Builder {

  const CpuDefault: string := "CPU - not defined"
  const RamDefault: string := "RAM - not defined"
  const StorageDefault: string := "Storage - not defined"
  const GpuDefault: string := "GPU - not defined"

  /** The four parts of a computer, as a value. */
  datatype Config = Config(cpu: string, ram: string, storage: string, gpu: string)

  const DefaultConfig: Config := Config(CpuDefault, RamDefault, StorageDefault, GpuDefault)

  /** One setter call of the builder. */
  datatype Part = Cpu(value: string) | Ram(value: string) | Storage(value: string) | Gpu(value: string)

  /** What a setter does to the configuration: its own part takes the value, the others stay. */
  function SetPart(c: Config, p: Part): Config {
    match p
    case Cpu(v) => c.(cpu := v)
    case Ram(v) => c.(ram := v)
    case Storage(v) => c.(storage := v)
    case Gpu(v) => c.(gpu := v)
  }

  /** Two setter calls write the same part. */
  predicate SameField(p: Part, q: Part) {
    (p.Cpu? && q.Cpu?) || (p.Ram? && q.Ram?) || (p.Storage? && q.Storage?) || (p.Gpu? && q.Gpu?)
  }

  /** A setter changes only its own part, which then holds the given value. */
  lemma SetPartOnlyItsField(c: Config, p: Part)
    ensures p.Cpu? ==> SetPart(c, p).cpu == p.value
    ensures p.Ram? ==> SetPart(c, p).ram == p.value
    ensures p.Storage? ==> SetPart(c, p).storage == p.value
    ensures p.Gpu? ==> SetPart(c, p).gpu == p.value
    ensures !p.Cpu? ==> SetPart(c, p).cpu == c.cpu
    ensures !p.Ram? ==> SetPart(c, p).ram == c.ram
    ensures !p.Storage? ==> SetPart(c, p).storage == c.storage
    ensures !p.Gpu? ==> SetPart(c, p).gpu == c.gpu
  {
  }

  /** Setters on different parts commute, and of two writes to one part the last one wins. */
  lemma SettersCommuteAndLastWins(c: Config, p: Part, q: Part)
    ensures !SameField(p, q) ==> SetPart(SetPart(c, p), q) == SetPart(SetPart(c, q), p)
    ensures SameField(p, q) ==> SetPart(SetPart(c, p), q) == SetPart(c, q)
  {
  }

  /** `Computer`: its parts are public fields, changed in place. */
  class Computer {
    var cpu: string
    var ram: string
    var storage: string
    var gpu: string

    constructor ()
      ensures Snapshot() == DefaultConfig
    {
      cpu := CpuDefault;
      ram := RamDefault;
      storage := StorageDefault;
      gpu := GpuDefault;
    }

    function Snapshot(): Config
      reads this
    {
      Config(cpu, ram, storage, gpu)
    }
  }

  /** `ComputerBuilder`: one computer, created with the builder and filled in by its setters. */
  class ComputerBuilder {
    const computer: Computer

    constructor ()
      ensures fresh(computer) && computer.Snapshot() == DefaultConfig
    {
      computer := new Computer();
    }

    method SetCpu(cpu: string) returns (self: ComputerBuilder)
      modifies computer
      ensures self == this
      ensures computer.Snapshot() == SetPart(old(computer.Snapshot()), Cpu(cpu))
    {
      computer.cpu := cpu;
      return this;
    }

    method SetRam(ram: string) returns (self: ComputerBuilder)
      modifies computer
      ensures self == this
      ensures computer.Snapshot() == SetPart(old(computer.Snapshot()), Ram(ram))
    {
      computer.ram := ram;
      return this;
    }

    method SetStorage(storage: string) returns (self: ComputerBuilder)
      modifies computer
      ensures self == this
      ensures computer.Snapshot() == SetPart(old(computer.Snapshot()), Storage(storage))
    {
      computer.storage := storage;
      return this;
    }

    method SetGpu(gpu: string) returns (self: ComputerBuilder)
      modifies computer
      ensures self == this
      ensures computer.Snapshot() == SetPart(old(computer.Snapshot()), Gpu(gpu))
    {
      computer.gpu := gpu;
      return this;
    }

    /** `build()`: the builder's own computer, not a copy. */
    method Build() returns (built: Computer)
      ensures built == computer
    {
      return computer;
    }
  }

  /**
   * The example's two computers, from two builders: the basic one keeps the
   * default GPU, the gaming one has all four parts set.
   */
  method ExampleComputers() returns (basic: Computer, gaming: Computer)
    ensures basic.Snapshot() == Config("Intel Core i7", "16GB", "256GB", GpuDefault)
    ensures gaming.Snapshot() == Config("AMD Ryzen 5", "32GB", "1TB", "NVIDIA GeForce RTX 3060")
    ensures basic != gaming
  {
    var b := new ComputerBuilder();
    b := b.SetCpu("Intel Core i7");
    b := b.SetRam("16GB");
    b := b.SetStorage("256GB");
    basic := b.Build();
    var g := new ComputerBuilder();
    g := g.SetCpu("AMD Ryzen 5");
    g := g.SetGpu("NVIDIA GeForce RTX 3060");
    g := g.SetRam("32GB");
    g := g.SetStorage("1TB");
    gaming := g.Build();
  }

  /** Building twice gives one object, so a setter called after `build` changes the computer already built. */
  method BuildAliases() returns (first: Computer, second: Computer)
    ensures first == second
    ensures first.cpu == "AMD Ryzen 5"
  {
    var builder := new ComputerBuilder();
    builder := builder.SetCpu("Intel Core i7");
    first := builder.Build();
    builder := builder.SetCpu("AMD Ryzen 5");
    second := builder.Build();
  }
}
