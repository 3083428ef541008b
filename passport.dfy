/**
 * The product passport document exchanged with the remote API: the `Payload`
 * type of components/product-form.tsx. Every leaf is a string; the four tables
 * (material components, manufacturers, manufacturing processes, packaging
 * components) are arrays. Field names are the JSON keys in camelCase
 * (`product_name` is `productName`, `SKU` is `sku`; the API's spelling
 * `reparability` is kept).
 */
module Passport {

  /** One row of a components table. The material components and the packaging
      components have this same five-field shape. */
  datatype ComponentEntry = ComponentEntry(
    component: string,
    material: string,
    supplier: string,
    weightKg: string,
    recycledPercentage: string)

  datatype Manufacturer = Manufacturer(
    name: string,
    location: string,
    role: string,
    certifications: string)

  datatype ManufacturingProcess = ManufacturingProcess(
    process: string,
    location: string)

  datatype BasicInformation = BasicInformation(
    productName: string,
    sku: string,
    batchNumber: string,
    category: string,
    description: string)

  datatype Size = Size(heightCm: string, widthCm: string, depthCm: string)

  datatype PhysicalProperties = PhysicalProperties(
    size: Size,
    color: string,
    weightKg: string,
    volumeCm3: string)

  datatype FeaturesAndSpecifications = FeaturesAndSpecifications(
    keyFeatures: string,
    specifications: string)

  datatype BasicDetails = BasicDetails(
    basicInformation: BasicInformation,
    physicalProperties: PhysicalProperties,
    featuresAndSpecifications: FeaturesAndSpecifications)

  datatype MaterialsComposition = MaterialsComposition(
    components: seq<ComponentEntry>,
    certifications: string,
    chemicalInformation: string)

  datatype Materials = Materials(materialsComposition: MaterialsComposition)

  datatype SupplyChainInformation = SupplyChainInformation(
    manufacturers: seq<Manufacturer>,
    manufacturingProcesses: seq<ManufacturingProcess>)

  datatype SupplyChain = SupplyChain(supplyChainInformation: SupplyChainInformation)

  datatype PackagingDetails = PackagingDetails(
    packagingComponents: seq<ComponentEntry>,
    disposalInstructions: string)

  datatype Packaging = Packaging(packagingDetails: PackagingDetails)

  datatype EnvironmentalImpact = EnvironmentalImpact(
    carbonFootprint: string,
    energyConsumption: string,
    waterUsage: string,
    wasteEmissions: string,
    recyclability: string,
    circularEconomy: string)

  datatype Environmental = Environmental(environmentalImpact: EnvironmentalImpact)

  datatype CareInstructions = CareInstructions(careInstructions: string)

  datatype RepairInformation = RepairInformation(
    reparability: string,
    spareParts: string,
    repairServices: string)

  datatype CareAndRepair = CareAndRepair(
    careInstructions: CareInstructions,
    repairInformation: RepairInformation)

  datatype EndOfLifeInformation = EndOfLifeInformation(
    disassemblyInstructions: string,
    recyclingOptions: string,
    takeBackPrograms: string)

  datatype EndOfLife = EndOfLife(endOfLifeInformation: EndOfLifeInformation)

  datatype Payload = Payload(
    uuid: string,
    basicDetails: BasicDetails,
    materials: Materials,
    supplyChain: SupplyChain,
    packaging: Packaging,
    environmental: Environmental,
    careAndRepair: CareAndRepair,
    endOfLife: EndOfLife)

  /** The payload with its `uuid` key taken out: the body of a create request. */
  datatype CreatePayload = CreatePayload(
    basicDetails: BasicDetails,
    materials: Materials,
    supplyChain: SupplyChain,
    packaging: Packaging,
    environmental: Environmental,
    careAndRepair: CareAndRepair,
    endOfLife: EndOfLife)

  /** Puts a uuid back in front of a create body. */
  function WithUuid(uuid: string, c: CreatePayload): (p: Payload)
  {
    Payload(uuid, c.basicDetails, c.materials, c.supplyChain, c.packaging,
            c.environmental, c.careAndRepair, c.endOfLife)
  }

  /** The rest-destructuring `{ uuid, ...createPayload } = payload`: drops the
      uuid and nothing else, so the payload is the uuid plus this rest. */
  function WithoutUuid(p: Payload): (c: CreatePayload)
    ensures WithUuid(p.uuid, c) == p
    ensures forall u :: WithUuid(u, c) == p.(uuid := u)
  {
    CreatePayload(p.basicDetails, p.materials, p.supplyChain, p.packaging,
                  p.environmental, p.careAndRepair, p.endOfLife)
  }

  /** Taking the uuid out of a payload that had one put in gives back the body. */
  lemma WithoutUuidAfterWithUuid(uuid: string, c: CreatePayload)
    ensures WithoutUuid(WithUuid(uuid, c)) == c && WithUuid(uuid, c).uuid == uuid
  {
  }

  /** Every table of the passport holds exactly two entries: the shape of every
      payload the form sends. */
  predicate HasTwoOfEach(p: Payload)
  {
    && |p.materials.materialsComposition.components| == 2
    && |p.supplyChain.supplyChainInformation.manufacturers| == 2
    && |p.supplyChain.supplyChainInformation.manufacturingProcesses| == 2
    && |p.packaging.packagingDetails.packagingComponents| == 2
  }

  const BlankComponent := ComponentEntry("", "", "", "", "")
  const BlankManufacturer := Manufacturer("", "", "", "")
  const BlankProcess := ManufacturingProcess("", "")

  /** The first two entries of a table, a missing entry replaced by `blank`. */
  function FirstTwo<T>(s: seq<T>, blank: T): (r: seq<T>)
    ensures |r| == 2
    ensures r[0] == (if 0 < |s| then s[0] else blank)
    ensures r[1] == (if 1 < |s| then s[1] else blank)
    ensures |s| == 2 ==> r == s
  {
    [if 0 < |s| then s[0] else blank, if 1 < |s| then s[1] else blank]
  }

  /** The payload with each table cut or padded (with blank entries) to two
      entries; every other field unchanged. */
  function Normalize(p: Payload): (q: Payload)
    ensures HasTwoOfEach(q)
    ensures HasTwoOfEach(p) ==> q == p
  {
    var mc := p.materials.materialsComposition;
    var sc := p.supplyChain.supplyChainInformation;
    var pd := p.packaging.packagingDetails;
    p.(materials := Materials(mc.(components := FirstTwo(mc.components, BlankComponent))),
       supplyChain := SupplyChain(sc.(manufacturers := FirstTwo(sc.manufacturers, BlankManufacturer),
                                      manufacturingProcesses := FirstTwo(sc.manufacturingProcesses, BlankProcess))),
       packaging := Packaging(pd.(packagingComponents := FirstTwo(pd.packagingComponents, BlankComponent))))
  }
}
