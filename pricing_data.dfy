/**
 * The static catalog of the booking widget: vehicles, service categories, services
 * (routes), and the two price tables keyed by vehicle id and then service id, with
 * the lookups the rest of the widget uses. Prices are whole Saudi riyals. Display-only
 * fields (descriptions, images, icons are kept only for categories) are not modelled.
 */
module PricingData {
  import opened Wrappers
  import opened Sequences

  datatype Vehicle = Vehicle(id: string, name: string, nameAr: string, kind: string, kindAr: string,
                             capacity: nat, featured: bool)

  datatype ServiceCategory = ServiceCategory(id: string, name: string, nameAr: string, icon: string)

  datatype Service = Service(id: string, name: string, nameAr: string, category: string, popular: bool)

  /** One vehicle's prices, keyed by service id. */
  type PriceRow = map<string, int>

  const Camry: Vehicle := Vehicle("camry", "Camry", "كامري", "Sedan", "سيدان", 4, true)
  const Staria: Vehicle := Vehicle("staria", "Hyundai Staria", "هيونداي ستاريا", "Van", "فان", 7, false)
  const H1: Vehicle := Vehicle("h1", "Hyundai H1", "هيونداي H1", "Van", "فان", 10, true)
  const Hiace: Vehicle := Vehicle("hiace", "Hiace", "هايس", "Van", "فان", 12, false)
  const Yukon: Vehicle := Vehicle("yukon", "GMC Yukon XL", "جي إم سي يوكن", "SUV", "دفع رباعي", 7, true)
  const Coaster: Vehicle := Vehicle("coaster", "Coaster", "كوستر", "Bus", "باص", 24, false)

  const Vehicles: seq<Vehicle> := [
    Camry, Staria, H1, Hiace, Yukon, Coaster
  ]

  const ServiceCategories: seq<ServiceCategory> := [
    ServiceCategory("airport", "Airport Transfers", "نقل المطار", "plane"),
    ServiceCategory("intercity", "Intercity Travel", "السفر بين المدن", "car"),
    ServiceCategory("ziyarat", "Ziyarat Tours", "جولات الزيارة", "mosque"),
    ServiceCategory("train", "Train Station", "محطة القطار", "train"),
    ServiceCategory("meeqat", "Meeqat Services", "خدمات الميقات", "map-pin"),
    ServiceCategory("hourly", "Hourly Rental", "إيجار بالساعة", "clock")
  ]

  const JeddahAirportMakkah: Service := Service("jeddah-airport-makkah", "Jeddah Airport to Makkah Hotel", "مطار جدة إلى فندق مكة", "airport", true)
  const JeddahAirportJeddah: Service := Service("jeddah-airport-jeddah", "Jeddah Airport to Jeddah Hotel", "مطار جدة إلى فندق جدة", "airport", false)
  const JeddahHotelAirport: Service := Service("jeddah-hotel-airport", "Jeddah Hotel to Jeddah Airport", "فندق جدة إلى مطار جدة", "airport", false)
  const JeddahAirportMadina: Service := Service("jeddah-airport-madina", "Jeddah Airport to Madina Hotel", "مطار جدة إلى فندق المدينة", "airport", false)
  const MadinaAirportHotel: Service := Service("madina-airport-hotel", "Madina Airport to Madina Hotel", "مطار المدينة إلى فندق المدينة", "airport", false)
  const MadinaHotelAirport: Service := Service("madina-hotel-airport", "Madina Hotel to Madina Airport", "فندق المدينة إلى مطار المدينة", "airport", false)
  const MakkahHotelJeddahAirport: Service := Service("makkah-hotel-jeddah-airport", "Makkah Hotel to Jeddah Airport", "فندق مكة إلى مطار جدة", "airport", true)
  const MakkahMadina: Service := Service("makkah-madina", "Makkah Hotel to Madina Hotel", "فندق مكة إلى فندق المدينة", "intercity", true)
  const MadinaMakkah: Service := Service("madina-makkah", "Madina Hotel to Makkah Hotel", "فندق المدينة إلى فندق مكة", "intercity", true)
  const JeddahTaif: Service := Service("jeddah-taif", "Jeddah to Taif and Return", "جدة إلى الطائف والعودة", "intercity", false)
  const MakkahTaif: Service := Service("makkah-taif", "Makkah to Taif and Return", "مكة إلى الطائف والعودة", "intercity", false)
  const MakkahZiyarat: Service := Service("makkah-ziyarat", "Makkah Ziyarat", "زيارة مكة", "ziyarat", true)
  const MadinaZiyarat: Service := Service("madina-ziyarat", "Madina Ziyarat", "زيارة المدينة", "ziyarat", true)
  const MadinaZiyaratWadiya: Service := Service("madina-ziyarat-wadiya", "Madina Ziarat and Wadiya Jin", "زيارة المدينة ووادي الجن", "ziyarat", false)
  const JabalKhandamah: Service := Service("jabal-khandamah", "Jabal Khandamah", "جبل خندمة", "ziyarat", false)
  const MakkahTrainStation: Service := Service("makkah-train-station", "Makkah hotel to train station", "فندق مكة إلى محطة القطار", "train", false)
  const TrainStationMakkah: Service := Service("train-station-makkah", "Makkah train station to Makkah Hotel", "محطة قطار مكة إلى فندق مكة", "train", false)
  const MadinaTrainHotel: Service := Service("madina-train-hotel", "Medina Train station to Medina hotel", "محطة قطار المدينة إلى فندق المدينة", "train", false)
  const MadinaHotelTrain: Service := Service("madina-hotel-train", "Medina Hotel to Medina train station", "فندق المدينة إلى محطة قطار المدينة", "train", false)
  const MasjidAyesha: Service := Service("masjid-ayesha", "Masjid Ayesha Meeqat", "ميقات مسجد عائشة", "meeqat", false)
  const MasjidJurana: Service := Service("masjid-jurana", "Masjid Jurana Meeqat", "ميقات مسجد الجعرانة", "meeqat", false)
  const Hourly: Service := Service("hourly", "Per Hour Rate", "السعر بالساعة", "hourly", false)

  const Services: seq<Service> := [
    JeddahAirportMakkah,
    JeddahAirportJeddah,
    JeddahHotelAirport,
    JeddahAirportMadina,
    MadinaAirportHotel,
    MadinaHotelAirport,
    MakkahHotelJeddahAirport,
    MakkahMadina,
    MadinaMakkah,
    JeddahTaif,
    MakkahTaif,
    MakkahZiyarat,
    MadinaZiyarat,
    MadinaZiyaratWadiya,
    JabalKhandamah,
    MakkahTrainStation,
    TrainStationMakkah,
    MadinaTrainHotel,
    MadinaHotelTrain,
    MasjidAyesha,
    MasjidJurana,
    Hourly
  ]

  const StandardCamry: PriceRow := map[
    "jeddah-airport-makkah" := 250,
    "jeddah-airport-jeddah" := 250,
    "makkah-madina" := 500,
    "jeddah-airport-madina" := 550,
    "madina-airport-hotel" := 150,
    "madina-hotel-airport" := 120,
    "makkah-ziyarat" := 250,
    "madina-ziyarat" := 250,
    "jeddah-taif" := 700,
    "makkah-taif" := 550,
    "madina-makkah" := 500,
    "makkah-hotel-jeddah-airport" := 200,
    "masjid-ayesha" := 150,
    "masjid-jurana" := 150,
    "madina-ziyarat-wadiya" := 300,
    "makkah-train-station" := 120,
    "train-station-makkah" := 150,
    "madina-train-hotel" := 150,
    "madina-hotel-train" := 120,
    "hourly" := 100
  ]

  const StandardH1: PriceRow := map[
    "jabal-khandamah" := 170,
    "jeddah-airport-makkah" := 350,
    "jeddah-hotel-airport" := 200,
    "jeddah-airport-jeddah" := 250,
    "makkah-madina" := 600,
    "jeddah-airport-madina" := 600,
    "madina-airport-hotel" := 200,
    "madina-hotel-airport" := 150,
    "makkah-ziyarat" := 300,
    "madina-ziyarat" := 300,
    "jeddah-taif" := 800,
    "makkah-taif" := 600,
    "hourly" := 150,
    "madina-makkah" := 600,
    "makkah-hotel-jeddah-airport" := 300,
    "masjid-ayesha" := 150,
    "masjid-jurana" := 150,
    "madina-ziyarat-wadiya" := 400,
    "makkah-train-station" := 150,
    "train-station-makkah" := 150,
    "madina-train-hotel" := 150,
    "madina-hotel-train" := 150
  ]

  const StandardStaria: PriceRow := map[
    "jeddah-airport-makkah" := 350,
    "jeddah-hotel-airport" := 200,
    "jeddah-airport-jeddah" := 250,
    "makkah-madina" := 600,
    "jeddah-airport-madina" := 600,
    "madina-airport-hotel" := 200,
    "madina-hotel-airport" := 150,
    "makkah-ziyarat" := 300,
    "madina-ziyarat" := 300,
    "jeddah-taif" := 800,
    "makkah-taif" := 600,
    "hourly" := 150,
    "madina-makkah" := 600,
    "makkah-hotel-jeddah-airport" := 300,
    "masjid-ayesha" := 150,
    "masjid-jurana" := 150,
    "madina-ziyarat-wadiya" := 400,
    "makkah-train-station" := 150,
    "train-station-makkah" := 150,
    "madina-train-hotel" := 150,
    "madina-hotel-train" := 150
  ]

  const StandardHiace: PriceRow := map[
    "jeddah-airport-makkah" := 450,
    "jeddah-airport-jeddah" := 300,
    "jeddah-hotel-airport" := 300,
    "makkah-madina" := 700,
    "jeddah-airport-madina" := 800,
    "madina-airport-hotel" := 350,
    "madina-hotel-airport" := 300,
    "makkah-ziyarat" := 400,
    "madina-ziyarat" := 350,
    "jeddah-taif" := 1500,
    "makkah-taif" := 800,
    "hourly" := 200,
    "madina-makkah" := 700,
    "makkah-hotel-jeddah-airport" := 400,
    "madina-ziyarat-wadiya" := 500,
    "masjid-ayesha" := 250,
    "masjid-jurana" := 250,
    "makkah-train-station" := 250,
    "train-station-makkah" := 250,
    "madina-train-hotel" := 250,
    "madina-hotel-train" := 250
  ]

  const StandardYukon: PriceRow := map[
    "jeddah-airport-makkah" := 600,
    "jeddah-airport-jeddah" := 400,
    "jeddah-hotel-airport" := 300,
    "makkah-madina" := 1200,
    "jeddah-airport-madina" := 1200,
    "madina-airport-hotel" := 400,
    "madina-hotel-airport" := 300,
    "makkah-ziyarat" := 500,
    "madina-ziyarat" := 400,
    "jeddah-taif" := 1500,
    "makkah-taif" := 1000,
    "hourly" := 200,
    "madina-makkah" := 1200,
    "makkah-hotel-jeddah-airport" := 500,
    "madina-ziyarat-wadiya" := 600,
    "masjid-ayesha" := 300,
    "masjid-jurana" := 300,
    "makkah-train-station" := 300,
    "train-station-makkah" := 300,
    "madina-train-hotel" := 300,
    "madina-hotel-train" := 300
  ]

  const StandardCoaster: PriceRow := map[
    "jeddah-airport-makkah" := 800,
    "jeddah-airport-jeddah" := 500,
    "jeddah-hotel-airport" := 400,
    "makkah-madina" := 1200,
    "jeddah-airport-madina" := 1200,
    "madina-airport-hotel" := 500,
    "madina-hotel-airport" := 500,
    "makkah-ziyarat" := 600,
    "madina-ziyarat" := 550,
    "jeddah-taif" := 1800,
    "makkah-taif" := 1200,
    "hourly" := 300,
    "madina-makkah" := 1200,
    "makkah-hotel-jeddah-airport" := 700,
    "madina-ziyarat-wadiya" := 650,
    "masjid-ayesha" := 300,
    "masjid-jurana" := 400,
    "makkah-train-station" := 400,
    "train-station-makkah" := 400,
    "madina-train-hotel" := 400,
    "madina-hotel-train" := 400
  ]

  const RamadanCamry: PriceRow := map[
    "jeddah-airport-makkah" := 350,
    "jeddah-airport-jeddah" := 350,
    "makkah-madina" := 700,
    "jeddah-airport-madina" := 750,
    "madina-airport-hotel" := 200,
    "madina-hotel-airport" := 170,
    "makkah-ziyarat" := 350,
    "madina-ziyarat" := 350,
    "jeddah-taif" := 900,
    "makkah-taif" := 750,
    "madina-makkah" := 700,
    "makkah-hotel-jeddah-airport" := 300,
    "masjid-ayesha" := 200,
    "masjid-jurana" := 200,
    "madina-ziyarat-wadiya" := 400,
    "makkah-train-station" := 170,
    "train-station-makkah" := 200,
    "madina-train-hotel" := 200,
    "madina-hotel-train" := 170,
    "hourly" := 150
  ]

  const RamadanH1: PriceRow := map[
    "jabal-khandamah" := 250,
    "jeddah-airport-makkah" := 500,
    "jeddah-hotel-airport" := 300,
    "jeddah-airport-jeddah" := 350,
    "makkah-madina" := 850,
    "jeddah-airport-madina" := 850,
    "madina-airport-hotel" := 300,
    "madina-hotel-airport" := 200,
    "makkah-ziyarat" := 450,
    "madina-ziyarat" := 450,
    "jeddah-taif" := 1100,
    "makkah-taif" := 850,
    "hourly" := 200,
    "madina-makkah" := 850,
    "makkah-hotel-jeddah-airport" := 450,
    "masjid-ayesha" := 200,
    "masjid-jurana" := 200,
    "madina-ziyarat-wadiya" := 550,
    "makkah-train-station" := 200,
    "train-station-makkah" := 200,
    "madina-train-hotel" := 200,
    "madina-hotel-train" := 200
  ]

  const RamadanStaria: PriceRow := map[
    "jeddah-airport-makkah" := 500,
    "jeddah-hotel-airport" := 300,
    "jeddah-airport-jeddah" := 350,
    "makkah-madina" := 850,
    "jeddah-airport-madina" := 850,
    "madina-airport-hotel" := 300,
    "madina-hotel-airport" := 200,
    "makkah-ziyarat" := 450,
    "madina-ziyarat" := 450,
    "jeddah-taif" := 1100,
    "makkah-taif" := 850,
    "hourly" := 200,
    "madina-makkah" := 850,
    "makkah-hotel-jeddah-airport" := 450,
    "masjid-ayesha" := 200,
    "masjid-jurana" := 200,
    "madina-ziyarat-wadiya" := 550,
    "makkah-train-station" := 200,
    "train-station-makkah" := 200,
    "madina-train-hotel" := 200,
    "madina-hotel-train" := 200
  ]

  const RamadanHiace: PriceRow := map[
    "jeddah-airport-makkah" := 650,
    "jeddah-airport-jeddah" := 450,
    "jeddah-hotel-airport" := 450,
    "makkah-madina" := 1000,
    "jeddah-airport-madina" := 1100,
    "madina-airport-hotel" := 500,
    "madina-hotel-airport" := 450,
    "makkah-ziyarat" := 550,
    "madina-ziyarat" := 500,
    "jeddah-taif" := 2000,
    "makkah-taif" := 1100,
    "hourly" := 300,
    "madina-makkah" := 1000,
    "makkah-hotel-jeddah-airport" := 550,
    "madina-ziyarat-wadiya" := 700,
    "masjid-ayesha" := 350,
    "masjid-jurana" := 350,
    "makkah-train-station" := 350,
    "train-station-makkah" := 350,
    "madina-train-hotel" := 350,
    "madina-hotel-train" := 350
  ]

  const RamadanYukon: PriceRow := map[
    "jeddah-airport-makkah" := 850,
    "jeddah-airport-jeddah" := 550,
    "jeddah-hotel-airport" := 450,
    "makkah-madina" := 1600,
    "jeddah-airport-madina" := 1600,
    "madina-airport-hotel" := 550,
    "madina-hotel-airport" := 450,
    "makkah-ziyarat" := 700,
    "madina-ziyarat" := 550,
    "jeddah-taif" := 2000,
    "makkah-taif" := 1400,
    "hourly" := 300,
    "madina-makkah" := 1600,
    "makkah-hotel-jeddah-airport" := 700,
    "madina-ziyarat-wadiya" := 850,
    "masjid-ayesha" := 450,
    "masjid-jurana" := 450,
    "makkah-train-station" := 450,
    "train-station-makkah" := 450,
    "madina-train-hotel" := 450,
    "madina-hotel-train" := 450
  ]

  const RamadanCoaster: PriceRow := map[
    "jeddah-airport-makkah" := 1100,
    "jeddah-airport-jeddah" := 700,
    "jeddah-hotel-airport" := 550,
    "makkah-madina" := 1600,
    "jeddah-airport-madina" := 1600,
    "madina-airport-hotel" := 700,
    "madina-hotel-airport" := 700,
    "makkah-ziyarat" := 850,
    "madina-ziyarat" := 750,
    "jeddah-taif" := 2400,
    "makkah-taif" := 1600,
    "hourly" := 450,
    "madina-makkah" := 1600,
    "makkah-hotel-jeddah-airport" := 1000,
    "madina-ziyarat-wadiya" := 900,
    "masjid-ayesha" := 450,
    "masjid-jurana" := 550,
    "makkah-train-station" := 550,
    "train-station-makkah" := 550,
    "madina-train-hotel" := 550,
    "madina-hotel-train" := 550
  ]

  /** `standardPricing[vehicleId]`: the vehicle's row, or `None` (undefined) for a vehicle without one. */
  function StandardPricing(vehicleId: string): Option<PriceRow> {
    if vehicleId == "camry" then Some(StandardCamry)
    else if vehicleId == "h1" then Some(StandardH1)
    else if vehicleId == "staria" then Some(StandardStaria)
    else if vehicleId == "hiace" then Some(StandardHiace)
    else if vehicleId == "yukon" then Some(StandardYukon)
    else if vehicleId == "coaster" then Some(StandardCoaster)
    else None
  }

  /** `ramadanPricing[vehicleId]`: the vehicle's row, or `None` (undefined) for a vehicle without one. */
  function RamadanPricing(vehicleId: string): Option<PriceRow> {
    if vehicleId == "camry" then Some(RamadanCamry)
    else if vehicleId == "h1" then Some(RamadanH1)
    else if vehicleId == "staria" then Some(RamadanStaria)
    else if vehicleId == "hiace" then Some(RamadanHiace)
    else if vehicleId == "yukon" then Some(RamadanYukon)
    else if vehicleId == "coaster" then Some(RamadanCoaster)
    else None
  }

  /** The two rows offer the same services, and every Ramadan price is above the standard one. */
  ghost predicate RowsAgree(standard: PriceRow, ramadan: PriceRow) {
    standard.Keys == ramadan.Keys && forall s :: s in standard ==> standard[s] < ramadan[s]
  }

  lemma CamryRowsAgree()
    ensures RowsAgree(StandardCamry, RamadanCamry)
  {
  }

  lemma H1RowsAgree()
    ensures RowsAgree(StandardH1, RamadanH1)
  {
  }

  lemma StariaRowsAgree()
    ensures RowsAgree(StandardStaria, RamadanStaria)
  {
  }

  lemma HiaceRowsAgree()
    ensures RowsAgree(StandardHiace, RamadanHiace)
  {
  }

  lemma YukonRowsAgree()
    ensures RowsAgree(StandardYukon, RamadanYukon)
  {
  }

  lemma CoasterRowsAgree()
    ensures RowsAgree(StandardCoaster, RamadanCoaster)
  {
  }

  /** The two tables define the same (vehicle, service) pairs, and the Ramadan table
      charges more for every one of them. */
  lemma TablesAgree(vehicleId: string)
    ensures StandardPricing(vehicleId).Some? <==> RamadanPricing(vehicleId).Some?
    ensures StandardPricing(vehicleId).Some? ==>
              RowsAgree(StandardPricing(vehicleId).value, RamadanPricing(vehicleId).value)
  {
    if vehicleId == "camry" {
      CamryRowsAgree();
    } else if vehicleId == "h1" {
      H1RowsAgree();
    } else if vehicleId == "staria" {
      StariaRowsAgree();
    } else if vehicleId == "hiace" {
      HiaceRowsAgree();
    } else if vehicleId == "yukon" {
      YukonRowsAgree();
    } else if vehicleId == "coaster" {
      CoasterRowsAgree();
    }
  }

  ghost predicate PricesPositive(row: PriceRow) {
    forall s :: s in row ==> row[s] > 0
  }

  lemma CamryPricesPositive()
    ensures PricesPositive(StandardCamry)
  {
  }

  lemma H1PricesPositive()
    ensures PricesPositive(StandardH1)
  {
  }

  lemma StariaPricesPositive()
    ensures PricesPositive(StandardStaria)
  {
  }

  lemma HiacePricesPositive()
    ensures PricesPositive(StandardHiace)
  {
  }

  lemma YukonPricesPositive()
    ensures PricesPositive(StandardYukon)
  {
  }

  lemma CoasterPricesPositive()
    ensures PricesPositive(StandardCoaster)
  {
  }

  /** No standard price is zero (or negative), so a priced route is never taken for a missing one. */
  lemma StandardPricesPositive(vehicleId: string, serviceId: string)
    requires StandardPricing(vehicleId).Some? && serviceId in StandardPricing(vehicleId).value
    ensures StandardPricing(vehicleId).value[serviceId] > 0
  {
    if vehicleId == "camry" {
      CamryPricesPositive();
    } else if vehicleId == "h1" {
      H1PricesPositive();
    } else if vehicleId == "staria" {
      StariaPricesPositive();
    } else if vehicleId == "hiace" {
      HiacePricesPositive();
    } else if vehicleId == "yukon" {
      YukonPricesPositive();
    } else if vehicleId == "coaster" {
      CoasterPricesPositive();
    }
  }

  /** `getPrice`: always the standard table; `None` for an unknown vehicle or service. */
  function GetPrice(vehicleId: string, serviceId: string): (r: Option<int>)
    ensures r.Some? <==> StandardPricing(vehicleId).Some? && serviceId in StandardPricing(vehicleId).value
    ensures r.Some? ==> r.value == StandardPricing(vehicleId).value[serviceId]
  {
    match StandardPricing(vehicleId)
    case None => None
    case Some(row) => if serviceId in row then Some(row[serviceId]) else None
  }

  /** `getVehicleById`: the first catalog vehicle with that id. */
  function GetVehicleById(id: string): (r: Option<Vehicle>)
    ensures r.None? <==> forall i :: 0 <= i < |Vehicles| ==> Vehicles[i].id != id
    ensures r.Some? ==> exists i :: 0 <= i < |Vehicles| && Vehicles[i] == r.value && r.value.id == id &&
                                   forall j :: 0 <= j < i ==> Vehicles[j].id != id
  {
    Find(Vehicles, (v: Vehicle) => v.id == id)
  }

  /** `getServiceById`: the first catalog service with that id. */
  function GetServiceById(id: string): (r: Option<Service>)
    ensures r.None? <==> forall i :: 0 <= i < |Services| ==> Services[i].id != id
    ensures r.Some? ==> exists i :: 0 <= i < |Services| && Services[i] == r.value && r.value.id == id &&
                                   forall j :: 0 <= j < i ==> Services[j].id != id
  {
    Find(Services, (s: Service) => s.id == id)
  }

  /** `getServicesByCategory`: exactly the services of that category, in catalog order. */
  function GetServicesByCategory(categoryId: string): (r: seq<Service>)
    ensures IsSubsequence(r, Services)
    ensures forall i :: 0 <= i < |r| ==> r[i] in Services && r[i].category == categoryId
    ensures forall i :: 0 <= i < |Services| && Services[i].category == categoryId ==> Services[i] in r
  {
    InCategory(Services, categoryId)
  }

  /** The services of a list that belong to a category, in list order. */
  function InCategory(services: seq<Service>, categoryId: string): (r: seq<Service>)
    ensures IsSubsequence(r, services)
    ensures forall i :: 0 <= i < |r| ==> r[i] in services && r[i].category == categoryId
    ensures forall i :: 0 <= i < |services| && services[i].category == categoryId ==> services[i] in r
    ensures forall x :: multiset(r)[x] == if x.category == categoryId then multiset(services)[x] else 0
  {
    Filter(services, (s: Service) => s.category == categoryId)
  }

  /** `getAvailableServicesForVehicle`: exactly the services, in catalog order, that the
      STANDARD table prices for the vehicle; none for a vehicle without a standard row. */
  function GetAvailableServicesForVehicle(vehicleId: string): (r: seq<Service>)
    ensures StandardPricing(vehicleId).None? ==> r == []
    ensures IsSubsequence(r, Services)
    ensures forall i :: 0 <= i < |r| ==> r[i] in Services && GetPrice(vehicleId, r[i].id).Some?
    ensures forall i :: 0 <= i < |Services| && GetPrice(vehicleId, Services[i].id).Some? ==> Services[i] in r
  {
    match StandardPricing(vehicleId)
    case None => []
    case Some(vehiclePricing) => PricedIn(Services, vehiclePricing)
  }

  /** The services of a list that a price row prices, in list order. */
  function PricedIn(services: seq<Service>, row: PriceRow): (r: seq<Service>)
    ensures IsSubsequence(r, services)
    ensures forall i :: 0 <= i < |r| ==> r[i] in services && r[i].id in row
    ensures forall i :: 0 <= i < |services| && services[i].id in row ==> services[i] in r
    ensures forall x :: multiset(r)[x] == if x.id in row then multiset(services)[x] else 0
  {
    Filter(services, (s: Service) => s.id in row)
  }

  /** Availability is judged on the standard table only, yet nothing it offers lacks a Ramadan
      price, and the Ramadan price of an offered service is the higher one. */
  lemma AvailableServiceHasRamadanPrice(vehicleId: string, service: Service)
    requires service in GetAvailableServicesForVehicle(vehicleId)
    ensures RamadanPricing(vehicleId).Some? && service.id in RamadanPricing(vehicleId).value
    ensures StandardPricing(vehicleId).value[service.id] < RamadanPricing(vehicleId).value[service.id]
  {
    TablesAgree(vehicleId);
  }

  /** Every vehicle of the fleet has a row in both tables. */
  lemma FleetIsPriced(i: nat)
    requires i < |Vehicles|
    ensures StandardPricing(Vehicles[i].id).Some? && RamadanPricing(Vehicles[i].id).Some?
  {
  }
}
