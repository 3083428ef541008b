/**
 * The product form of components/product-form.tsx as a codec between the flat
 * form record that the inputs edit and the nested passport payload that the
 * API stores: `convertPayloadToFormData` decodes, the payload literal built in
 * `handleSubmit` encodes, and the create/edit branch chooses the request.
 */
module ProductFormCodec {

  import opened Wrappers
  import P = Passport

  /** The form record: one string per input, keyed as in the form's initial
      state (`size_height` is `sizeHeight`, `chemical_info` is `chemicalInfo`). */
  datatype Form = Form(
    uuid: string,
    name: string,
    sku: string,
    batch: string,
    category: string,
    description: string,
    sizeHeight: string,
    sizeWidth: string,
    sizeDepth: string,
    color: string,
    weight: string,
    volume: string,
    features: string,
    specifications: string,
    component1: string,
    material1: string,
    supplier1: string,
    weight1: string,
    recycledPercentage1: string,
    component2: string,
    material2: string,
    supplier2: string,
    weight2: string,
    recycledPercentage2: string,
    certifications: string,
    chemicalInfo: string,
    manufacturerName1: string,
    manufacturerLocation1: string,
    manufacturerRole1: string,
    manufacturerCertifications1: string,
    manufacturerName2: string,
    manufacturerLocation2: string,
    manufacturerRole2: string,
    manufacturerCertifications2: string,
    process1: string,
    processLocation1: string,
    process2: string,
    processLocation2: string,
    packagingComponent1: string,
    packagingMaterial1: string,
    packagingSupplier1: string,
    packagingWeight1: string,
    packagingRecycledPercentage1: string,
    packagingComponent2: string,
    packagingMaterial2: string,
    packagingSupplier2: string,
    packagingWeight2: string,
    packagingRecycledPercentage2: string,
    disposalInstructions: string,
    carbonFootprint: string,
    energyConsumption: string,
    waterUsage: string,
    wasteEmissions: string,
    recyclability: string,
    circularEconomy: string,
    careInstructions: string,
    repairability: string,
    spareParts: string,
    repairServices: string,
    disassemblyInstructions: string,
    recyclingOptions: string,
    takeBackPrograms: string)

  /** The key of one form field: the `name` attribute an input reports to the
      change handler. */
  datatype FieldName =
    | Uuid | Name | Sku | Batch | Category
    | Description | SizeHeight | SizeWidth | SizeDepth | Color
    | Weight | Volume | Features | Specifications | Component1
    | Material1 | Supplier1 | Weight1 | RecycledPercentage1 | Component2
    | Material2 | Supplier2 | Weight2 | RecycledPercentage2 | Certifications
    | ChemicalInfo | ManufacturerName1 | ManufacturerLocation1 | ManufacturerRole1 | ManufacturerCertifications1
    | ManufacturerName2 | ManufacturerLocation2 | ManufacturerRole2 | ManufacturerCertifications2 | Process1
    | ProcessLocation1 | Process2 | ProcessLocation2 | PackagingComponent1 | PackagingMaterial1
    | PackagingSupplier1 | PackagingWeight1 | PackagingRecycledPercentage1 | PackagingComponent2 | PackagingMaterial2
    | PackagingSupplier2 | PackagingWeight2 | PackagingRecycledPercentage2 | DisposalInstructions | CarbonFootprint
    | EnergyConsumption | WaterUsage | WasteEmissions | Recyclability | CircularEconomy
    | CareInstructions | Repairability | SpareParts | RepairServices | DisassemblyInstructions
    | RecyclingOptions | TakeBackPrograms

  /** The value of field `k`: `formData[k]`. */
  function Get(f: Form, k: FieldName): string {
    match k
    case Uuid => f.uuid
    case Name => f.name
    case Sku => f.sku
    case Batch => f.batch
    case Category => f.category
    case Description => f.description
    case SizeHeight => f.sizeHeight
    case SizeWidth => f.sizeWidth
    case SizeDepth => f.sizeDepth
    case Color => f.color
    case Weight => f.weight
    case Volume => f.volume
    case Features => f.features
    case Specifications => f.specifications
    case Component1 => f.component1
    case Material1 => f.material1
    case Supplier1 => f.supplier1
    case Weight1 => f.weight1
    case RecycledPercentage1 => f.recycledPercentage1
    case Component2 => f.component2
    case Material2 => f.material2
    case Supplier2 => f.supplier2
    case Weight2 => f.weight2
    case RecycledPercentage2 => f.recycledPercentage2
    case Certifications => f.certifications
    case ChemicalInfo => f.chemicalInfo
    case ManufacturerName1 => f.manufacturerName1
    case ManufacturerLocation1 => f.manufacturerLocation1
    case ManufacturerRole1 => f.manufacturerRole1
    case ManufacturerCertifications1 => f.manufacturerCertifications1
    case ManufacturerName2 => f.manufacturerName2
    case ManufacturerLocation2 => f.manufacturerLocation2
    case ManufacturerRole2 => f.manufacturerRole2
    case ManufacturerCertifications2 => f.manufacturerCertifications2
    case Process1 => f.process1
    case ProcessLocation1 => f.processLocation1
    case Process2 => f.process2
    case ProcessLocation2 => f.processLocation2
    case PackagingComponent1 => f.packagingComponent1
    case PackagingMaterial1 => f.packagingMaterial1
    case PackagingSupplier1 => f.packagingSupplier1
    case PackagingWeight1 => f.packagingWeight1
    case PackagingRecycledPercentage1 => f.packagingRecycledPercentage1
    case PackagingComponent2 => f.packagingComponent2
    case PackagingMaterial2 => f.packagingMaterial2
    case PackagingSupplier2 => f.packagingSupplier2
    case PackagingWeight2 => f.packagingWeight2
    case PackagingRecycledPercentage2 => f.packagingRecycledPercentage2
    case DisposalInstructions => f.disposalInstructions
    case CarbonFootprint => f.carbonFootprint
    case EnergyConsumption => f.energyConsumption
    case WaterUsage => f.waterUsage
    case WasteEmissions => f.wasteEmissions
    case Recyclability => f.recyclability
    case CircularEconomy => f.circularEconomy
    case CareInstructions => f.careInstructions
    case Repairability => f.repairability
    case SpareParts => f.spareParts
    case RepairServices => f.repairServices
    case DisassemblyInstructions => f.disassemblyInstructions
    case RecyclingOptions => f.recyclingOptions
    case TakeBackPrograms => f.takeBackPrograms
  }

  /** The record whose every field `k` holds `g(k)`. */
  function FromFields(g: FieldName -> string): (r: Form)
    ensures forall k :: Get(r, k) == g(k)
  {
    Form(
      g(Uuid), g(Name), g(Sku), g(Batch),
      g(Category), g(Description), g(SizeHeight), g(SizeWidth),
      g(SizeDepth), g(Color), g(Weight), g(Volume),
      g(Features), g(Specifications), g(Component1), g(Material1),
      g(Supplier1), g(Weight1), g(RecycledPercentage1), g(Component2),
      g(Material2), g(Supplier2), g(Weight2), g(RecycledPercentage2),
      g(Certifications), g(ChemicalInfo), g(ManufacturerName1), g(ManufacturerLocation1),
      g(ManufacturerRole1), g(ManufacturerCertifications1), g(ManufacturerName2), g(ManufacturerLocation2),
      g(ManufacturerRole2), g(ManufacturerCertifications2), g(Process1), g(ProcessLocation1),
      g(Process2), g(ProcessLocation2), g(PackagingComponent1), g(PackagingMaterial1),
      g(PackagingSupplier1), g(PackagingWeight1), g(PackagingRecycledPercentage1), g(PackagingComponent2),
      g(PackagingMaterial2), g(PackagingSupplier2), g(PackagingWeight2), g(PackagingRecycledPercentage2),
      g(DisposalInstructions), g(CarbonFootprint), g(EnergyConsumption), g(WaterUsage),
      g(WasteEmissions), g(Recyclability), g(CircularEconomy), g(CareInstructions),
      g(Repairability), g(SpareParts), g(RepairServices), g(DisassemblyInstructions),
      g(RecyclingOptions), g(TakeBackPrograms))
  }

  /** The spread-and-overwrite `{ ...prevData, [k]: v }`: field `k` becomes `v`,
      every other field keeps its value. */
  function Set(f: Form, k: FieldName, v: string): (r: Form)
    ensures Get(r, k) == v
    ensures forall j :: j != k ==> Get(r, j) == Get(f, j)
  {
    FromFields(j => if j == k then v else Get(f, j))
  }

  /** The form's initial state: every field is the empty string. */
  function EmptyForm(): (f: Form)
    ensures forall k :: Get(f, k) == ""
  {
    FromFields(k => "")
  }

  /** JavaScript's `v || ""` on an optional string: `undefined` and `""` are
      falsy and give `""`, any other string is returned as it is. */
  function OrEmpty(v: Option<string>): (r: string)
    ensures v.None? ==> r == ""
    ensures v.Some? ==> r == v.value
  {
    match v
    case None => ""
    case Some(s) => if s != "" then s else ""
  }

  /** Optional chaining `s[i]?.field`: the field of entry `i`, or `undefined`
      when the array has no entry `i`. */
  function Chain<T>(s: seq<T>, i: nat, field: T -> string): (r: Option<string>)
    ensures r.Some? <==> i < |s|
    ensures i < |s| ==> r.value == field(s[i])
  {
    if i < |s| then Some(field(s[i])) else None
  }

  /** `convertPayloadToFormData`: scalar leaves are copied into their form
      fields; of each table only entries 0 and 1 are read, and every field of a
      missing entry becomes the empty string. */
  function Decode(p: P.Payload): (r: Form)
    ensures var n := |p.materials.materialsComposition.components|;
      && (n < 1 ==> (r.component1 == r.material1 == r.supplier1 == r.weight1 == r.recycledPercentage1 == ""))
      && (n < 2 ==> (r.component2 == r.material2 == r.supplier2 == r.weight2 == r.recycledPercentage2 == ""))
    ensures var n := |p.supplyChain.supplyChainInformation.manufacturers|;
      && (n < 1 ==> (r.manufacturerName1 == r.manufacturerLocation1 == r.manufacturerRole1
                     == r.manufacturerCertifications1 == ""))
      && (n < 2 ==> (r.manufacturerName2 == r.manufacturerLocation2 == r.manufacturerRole2
                     == r.manufacturerCertifications2 == ""))
    ensures var n := |p.supplyChain.supplyChainInformation.manufacturingProcesses|;
      && (n < 1 ==> (r.process1 == r.processLocation1 == ""))
      && (n < 2 ==> (r.process2 == r.processLocation2 == ""))
    ensures var n := |p.packaging.packagingDetails.packagingComponents|;
      && (n < 1 ==> (r.packagingComponent1 == r.packagingMaterial1 == r.packagingSupplier1
                     == r.packagingWeight1 == r.packagingRecycledPercentage1 == ""))
      && (n < 2 ==> (r.packagingComponent2 == r.packagingMaterial2 == r.packagingSupplier2
                     == r.packagingWeight2 == r.packagingRecycledPercentage2 == ""))
  {
    var info := p.basicDetails.basicInformation;
    var phys := p.basicDetails.physicalProperties;
    var feat := p.basicDetails.featuresAndSpecifications;
    var comp := p.materials.materialsComposition;
    var chain := p.supplyChain.supplyChainInformation;
    var pack := p.packaging.packagingDetails;
    var env := p.environmental.environmentalImpact;
    var repair := p.careAndRepair.repairInformation;
    var eol := p.endOfLife.endOfLifeInformation;
    var cs, ms, ps, pcs := comp.components, chain.manufacturers, chain.manufacturingProcesses, pack.packagingComponents;
    Form(
      uuid := p.uuid,
      name := info.productName,
      sku := info.sku,
      batch := info.batchNumber,
      category := info.category,
      description := info.description,
      sizeHeight := phys.size.heightCm,
      sizeWidth := phys.size.widthCm,
      sizeDepth := phys.size.depthCm,
      color := phys.color,
      weight := phys.weightKg,
      volume := phys.volumeCm3,
      features := feat.keyFeatures,
      specifications := feat.specifications,
      component1 := OrEmpty(Chain(cs, 0, (c: P.ComponentEntry) => c.component)),
      material1 := OrEmpty(Chain(cs, 0, (c: P.ComponentEntry) => c.material)),
      supplier1 := OrEmpty(Chain(cs, 0, (c: P.ComponentEntry) => c.supplier)),
      weight1 := OrEmpty(Chain(cs, 0, (c: P.ComponentEntry) => c.weightKg)),
      recycledPercentage1 := OrEmpty(Chain(cs, 0, (c: P.ComponentEntry) => c.recycledPercentage)),
      component2 := OrEmpty(Chain(cs, 1, (c: P.ComponentEntry) => c.component)),
      material2 := OrEmpty(Chain(cs, 1, (c: P.ComponentEntry) => c.material)),
      supplier2 := OrEmpty(Chain(cs, 1, (c: P.ComponentEntry) => c.supplier)),
      weight2 := OrEmpty(Chain(cs, 1, (c: P.ComponentEntry) => c.weightKg)),
      recycledPercentage2 := OrEmpty(Chain(cs, 1, (c: P.ComponentEntry) => c.recycledPercentage)),
      certifications := comp.certifications,
      chemicalInfo := comp.chemicalInformation,
      manufacturerName1 := OrEmpty(Chain(ms, 0, (m: P.Manufacturer) => m.name)),
      manufacturerLocation1 := OrEmpty(Chain(ms, 0, (m: P.Manufacturer) => m.location)),
      manufacturerRole1 := OrEmpty(Chain(ms, 0, (m: P.Manufacturer) => m.role)),
      manufacturerCertifications1 := OrEmpty(Chain(ms, 0, (m: P.Manufacturer) => m.certifications)),
      manufacturerName2 := OrEmpty(Chain(ms, 1, (m: P.Manufacturer) => m.name)),
      manufacturerLocation2 := OrEmpty(Chain(ms, 1, (m: P.Manufacturer) => m.location)),
      manufacturerRole2 := OrEmpty(Chain(ms, 1, (m: P.Manufacturer) => m.role)),
      manufacturerCertifications2 := OrEmpty(Chain(ms, 1, (m: P.Manufacturer) => m.certifications)),
      process1 := OrEmpty(Chain(ps, 0, (q: P.ManufacturingProcess) => q.process)),
      processLocation1 := OrEmpty(Chain(ps, 0, (q: P.ManufacturingProcess) => q.location)),
      process2 := OrEmpty(Chain(ps, 1, (q: P.ManufacturingProcess) => q.process)),
      processLocation2 := OrEmpty(Chain(ps, 1, (q: P.ManufacturingProcess) => q.location)),
      packagingComponent1 := OrEmpty(Chain(pcs, 0, (c: P.ComponentEntry) => c.component)),
      packagingMaterial1 := OrEmpty(Chain(pcs, 0, (c: P.ComponentEntry) => c.material)),
      packagingSupplier1 := OrEmpty(Chain(pcs, 0, (c: P.ComponentEntry) => c.supplier)),
      packagingWeight1 := OrEmpty(Chain(pcs, 0, (c: P.ComponentEntry) => c.weightKg)),
      packagingRecycledPercentage1 := OrEmpty(Chain(pcs, 0, (c: P.ComponentEntry) => c.recycledPercentage)),
      packagingComponent2 := OrEmpty(Chain(pcs, 1, (c: P.ComponentEntry) => c.component)),
      packagingMaterial2 := OrEmpty(Chain(pcs, 1, (c: P.ComponentEntry) => c.material)),
      packagingSupplier2 := OrEmpty(Chain(pcs, 1, (c: P.ComponentEntry) => c.supplier)),
      packagingWeight2 := OrEmpty(Chain(pcs, 1, (c: P.ComponentEntry) => c.weightKg)),
      packagingRecycledPercentage2 := OrEmpty(Chain(pcs, 1, (c: P.ComponentEntry) => c.recycledPercentage)),
      disposalInstructions := pack.disposalInstructions,
      carbonFootprint := env.carbonFootprint,
      energyConsumption := env.energyConsumption,
      waterUsage := env.waterUsage,
      wasteEmissions := env.wasteEmissions,
      recyclability := env.recyclability,
      circularEconomy := env.circularEconomy,
      careInstructions := p.careAndRepair.careInstructions.careInstructions,
      repairability := repair.reparability,
      spareParts := repair.spareParts,
      repairServices := repair.repairServices,
      disassemblyInstructions := eol.disassemblyInstructions,
      recyclingOptions := eol.recyclingOptions,
      takeBackPrograms := eol.takeBackPrograms)
  }

  /** The payload literal of `handleSubmit`: every form field lands in exactly
      one leaf, and each table has exactly two entries, built from the fields
      numbered 1 and 2. Decoding it gives back the form. */
  function Encode(f: Form): (r: P.Payload)
    ensures P.HasTwoOfEach(r)
    ensures Decode(r) == f
  {
    P.Payload(
      uuid := f.uuid,
      basicDetails := P.BasicDetails(
        basicInformation := P.BasicInformation(
          productName := f.name,
          sku := f.sku,
          batchNumber := f.batch,
          category := f.category,
          description := f.description),
        physicalProperties := P.PhysicalProperties(
          size := P.Size(heightCm := f.sizeHeight, widthCm := f.sizeWidth, depthCm := f.sizeDepth),
          color := f.color,
          weightKg := f.weight,
          volumeCm3 := f.volume),
        featuresAndSpecifications := P.FeaturesAndSpecifications(
          keyFeatures := f.features,
          specifications := f.specifications)),
      materials := P.Materials(P.MaterialsComposition(
        components := [
          P.ComponentEntry(f.component1, f.material1, f.supplier1, f.weight1, f.recycledPercentage1),
          P.ComponentEntry(f.component2, f.material2, f.supplier2, f.weight2, f.recycledPercentage2)],
        certifications := f.certifications,
        chemicalInformation := f.chemicalInfo)),
      supplyChain := P.SupplyChain(P.SupplyChainInformation(
        manufacturers := [
          P.Manufacturer(f.manufacturerName1, f.manufacturerLocation1, f.manufacturerRole1, f.manufacturerCertifications1),
          P.Manufacturer(f.manufacturerName2, f.manufacturerLocation2, f.manufacturerRole2, f.manufacturerCertifications2)],
        manufacturingProcesses := [
          P.ManufacturingProcess(f.process1, f.processLocation1),
          P.ManufacturingProcess(f.process2, f.processLocation2)])),
      packaging := P.Packaging(P.PackagingDetails(
        packagingComponents := [
          P.ComponentEntry(f.packagingComponent1, f.packagingMaterial1, f.packagingSupplier1,
                           f.packagingWeight1, f.packagingRecycledPercentage1),
          P.ComponentEntry(f.packagingComponent2, f.packagingMaterial2, f.packagingSupplier2,
                           f.packagingWeight2, f.packagingRecycledPercentage2)],
        disposalInstructions := f.disposalInstructions)),
      environmental := P.Environmental(P.EnvironmentalImpact(
        carbonFootprint := f.carbonFootprint,
        energyConsumption := f.energyConsumption,
        waterUsage := f.waterUsage,
        wasteEmissions := f.wasteEmissions,
        recyclability := f.recyclability,
        circularEconomy := f.circularEconomy)),
      careAndRepair := P.CareAndRepair(
        careInstructions := P.CareInstructions(f.careInstructions),
        repairInformation := P.RepairInformation(
          reparability := f.repairability,
          spareParts := f.spareParts,
          repairServices := f.repairServices)),
      endOfLife := P.EndOfLife(P.EndOfLifeInformation(
        disassemblyInstructions := f.disassemblyInstructions,
        recyclingOptions := f.recyclingOptions,
        takeBackPrograms := f.takeBackPrograms)))
  }

  /** Decoding reads nothing but the first two entries of each table, and a
      missing entry reads like a blank one. */
  lemma DecodeReadsFirstTwoEntries(p: P.Payload)
    ensures Decode(P.Normalize(p)) == Decode(p)
  {
  }

  /** Decode then encode gives the payload with every table cut or padded to
      two entries; nothing else is lost. */
  lemma EncodeAfterDecode(p: P.Payload)
    ensures Encode(Decode(p)) == P.Normalize(p)
  {
  }

  /** On a payload of the shape the form sends, decode then encode is the
      identity. */
  lemma EncodeAfterDecodeTwoOfEach(p: P.Payload)
    requires P.HasTwoOfEach(p)
    ensures Encode(Decode(p)) == p
  {
  }

  /** A payload with two entries per table is the encoding of its decoding:
      no other payload of that shape decodes to the same form. */
  lemma TwoOfEachDeterminedByDecode(b: P.Payload, f: Form)
    requires P.HasTwoOfEach(b) && Decode(b) == f
    ensures b == Encode(f)
  {
  }

  /** Two different forms never encode to the same payload. */
  lemma EncodeInjective(f: Form, g: Form)
    requires Encode(f) == Encode(g)
    ensures f == g
  {
  }

  // ----- The request `handleSubmit` sends -----

  const LambdaUrl := "https://jvr6bib2t26jsx3kf6hhnwomzu0jsyeq.lambda-url.eu-north-1.on.aws"
  const CreatePath := "/create_qr"
  const UpdatePathPrefix := "/update_qr/"

  datatype FetchMethod = Post | Put

  /** A request body: the full payload, or the payload without its uuid. */
  datatype Body = FullPayload(payload: P.Payload) | CreateBody(createPayload: P.CreatePayload)
  {
    predicate HasUuid() { FullPayload? }
  }

  datatype Request = Request(fetchMethod: FetchMethod, fetchUrl: string, body: Body)

  /** The create/edit branch of `handleSubmit`. In edit mode a PUT to
      `/update_qr/<uuid>` with the whole payload, whose uuid is the one in the
      URL; otherwise a POST to `/create_qr` whose body is the payload minus its
      uuid, and from which the form is recovered for any uuid put back. */
  function SubmitRequest(isEditMode: bool, f: Form): (r: Request)
    ensures r.fetchMethod == (if isEditMode then Put else Post)
    ensures r.body.HasUuid() <==> isEditMode
    ensures isEditMode ==>
      && r.fetchUrl == LambdaUrl + UpdatePathPrefix + f.uuid
      && r.body.payload.uuid == f.uuid
      && Decode(r.body.payload) == f
      && P.HasTwoOfEach(r.body.payload)
    ensures !isEditMode ==>
      && r.fetchUrl == LambdaUrl + CreatePath
      && P.HasTwoOfEach(P.WithUuid(f.uuid, r.body.createPayload))
      && forall u :: Decode(P.WithUuid(u, r.body.createPayload)) == f.(uuid := u)
  {
    var payload := Encode(f);
    if isEditMode then
      Request(Put, LambdaUrl + UpdatePathPrefix + f.uuid, FullPayload(payload))
    else
      Request(Post, LambdaUrl + CreatePath, CreateBody(P.WithoutUuid(payload)))
  }

  /** Opening a passport for editing and submitting it untouched sends back,
      to the URL of its own uuid, exactly the payload that was loaded, as long
      as its tables have the two entries the form can show. */
  lemma UntouchedEditResendsPayload(p: P.Payload)
    requires P.HasTwoOfEach(p)
    ensures SubmitRequest(true, Decode(p)) == Request(Put, LambdaUrl + UpdatePathPrefix + p.uuid, FullPayload(p))
  {
  }
}
