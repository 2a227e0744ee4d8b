// The constant catalogue the site ships with: six services, four products,
// six sample bookings, five clients and eight gallery images. The bookings'
// dates are offsets from the moment the module is loaded (`today`).
module Data {
  import opened Types
  import opened Lookup
  import opened Results

  const HourMs: int := 3600000
  const DayMs: int := 24 * HourMs

  const Services: seq<Service> := [
    Service("ser_001", "Luxury Manicure",
      "A comprehensive treatment including nail shaping, cuticle care, a relaxing hand massage, and a polish of your choice.",
      50, 60, "Nails", "service_manicure"),
    Service("ser_002", "Signature Pedicure",
      "Relax and rejuvenate with our signature pedicure, featuring a warm soak, exfoliation, massage, and perfect polish.",
      75, 75, "Nails", "service_pedicure"),
    Service("ser_003", "Deep Cleansing Facial",
      "A purifying facial treatment that cleanses pores, exfoliates dead skin cells, and treats common skin concerns.",
      120, 90, "Skincare", "service_facial"),
    Service("ser_004", "Balayage & Style",
      "Achieve a natural, sun-kissed look with our expert balayage technique, finished with a professional styling.",
      250, 180, "Hair", "service_hair"),
    Service("ser_005", "Professional Makeup",
      "Perfect for special occasions, our professional makeup artists will create a stunning look tailored to you.",
      100, 60, "Makeup", "service_makeup"),
    Service("ser_006", "Relaxation Massage",
      "Unwind with a full-body massage designed to soothe muscles, improve circulation, and promote deep relaxation.",
      110, 60, "Wellness", "service_massage")
  ]

  const Products: seq<Product> := [
    Product("prod_001", "Hydrating Face Cream",
      "A rich, nourishing cream that provides long-lasting hydration and leaves skin feeling soft and supple.",
      45, "product_cream"),
    Product("prod_002", "Vitamin C Serum",
      "Brighten and even out your skin tone with this powerful antioxidant serum, protecting against environmental damage.",
      60, "product_serum"),
    Product("prod_003", "Nourishing Hair Oil",
      "A lightweight yet deeply conditioning oil to tame frizz, add shine, and protect hair from heat damage.",
      35, "product_oil"),
    Product("prod_004", "Cuticle Care Pen",
      "An easy-to-use pen that nourishes and moisturizes cuticles, promoting healthy nail growth.",
      20, "product_cuticle")
  ]

  /** `add(today, { days, hours })`, with a day taken as 24 hours. */
  function AddDaysHours(today: int, days: int, hours: int): int {
    today + days * DayMs + hours * HourMs
  }

  /** The six sample bookings: the ones in the past are exactly the
      completed ones, and every completed booking is paid. */
  function Bookings(today: int): (bs: seq<Booking>)
    ensures |bs| == 6
    ensures forall i :: 0 <= i < |bs| ==> (bs[i].status == Completed <==> bs[i].bookingDate < today)
    ensures forall i :: 0 <= i < |bs| && bs[i].status == Completed ==> bs[i].paymentStatus == Paid
  {
    [
      Booking("book_001", "user_001", "ser_001", AddDaysHours(today, 3, 2), Confirmed, Paid),
      Booking("book_002", "user_002", "ser_003", AddDaysHours(today, 5, 4), Pending, Unpaid),
      Booking("book_003", "user_003", "ser_004", AddDaysHours(today, -10, 6), Completed, Paid),
      Booking("book_004", "user_004", "ser_002", AddDaysHours(today, -20, 3), Completed, Paid),
      Booking("book_005", "user_001", "ser_005", AddDaysHours(today, 7, 5), Confirmed, Unpaid),
      Booking("book_006", "user_005", "ser_006", AddDaysHours(today, -30, 1), Completed, Paid)
    ]
  }

  const Users: seq<User> := [
    User("user_001", "Alice Johnson", "alice.j@example.com", "+1-202-555-0103"),
    User("user_002", "Ben Carter", "ben.c@example.com", "+1-202-555-0156"),
    User("user_003", "Chloe Davis", "chloe.d@example.com", "+1-202-555-0189"),
    User("user_004", "David Evans", "david.e@example.com", "+1-202-555-0121"),
    User("user_005", "Emily Frank", "emily.f@example.com", "+1-202-555-0145")
  ]

  const GalleryImages: seq<GalleryImage> := [
    GalleryImage("gallery_1", "gallery_1_img"),
    GalleryImage("gallery_2", "gallery_2_img"),
    GalleryImage("gallery_3", "gallery_3_img"),
    GalleryImage("gallery_4", "gallery_4_img"),
    GalleryImage("gallery_5", "gallery_5_img"),
    GalleryImage("gallery_6", "gallery_6_img"),
    GalleryImage("gallery_7", "gallery_7_img"),
    GalleryImage("gallery_8", "gallery_8_img")
  ]

  /** Referential integrity of the sample bookings: each names an existing
      service and an existing client. */
  lemma BookingsReferToCatalogue(today: int)
    ensures forall b :: b in Bookings(today) ==> HasId(Services, ServiceId, b.serviceId)
    ensures forall b :: b in Bookings(today) ==> HasId(Users, UserId, b.userId)
  {
    var bs := Bookings(today);
    var serviceOf := [0, 2, 3, 1, 4, 5];
    var userOf := [0, 1, 2, 3, 0, 4];
    forall i | 0 <= i < |bs|
      ensures ServiceId(Services[serviceOf[i]]) == bs[i].serviceId
      ensures UserId(Users[userOf[i]]) == bs[i].userId
    {
    }
  }

  // Ids are pairwise distinct within every collection: within each, the ids
  // have one length and differ in their last character.

  lemma ServiceIdsDistinct()
    ensures DistinctIds(Services, ServiceId)
  {
    forall i, j | 0 <= i < j < |Services| ensures Services[i].id != Services[j].id {
      assert Services[i].id[6] != Services[j].id[6];
    }
  }

  lemma ProductIdsDistinct()
    ensures DistinctIds(Products, ProductId)
  {
    forall i, j | 0 <= i < j < |Products| ensures Products[i].id != Products[j].id {
      assert Products[i].id[7] != Products[j].id[7];
    }
  }

  lemma BookingIdsDistinct(today: int)
    ensures DistinctIds(Bookings(today), BookingId)
  {
    var bs := Bookings(today);
    forall i, j | 0 <= i < j < |bs| ensures bs[i].id != bs[j].id {
      assert bs[i].id[7] != bs[j].id[7];
    }
  }

  lemma UserIdsDistinct()
    ensures DistinctIds(Users, UserId)
  {
    forall i, j | 0 <= i < j < |Users| ensures Users[i].id != Users[j].id {
      assert Users[i].id[7] != Users[j].id[7];
    }
  }

  lemma GalleryIdsDistinct()
    ensures DistinctIds(GalleryImages, GalleryImageId)
  {
    forall i, j | 0 <= i < j < |GalleryImages| ensures GalleryImages[i].id != GalleryImages[j].id {
      assert GalleryImages[i].id[8] != GalleryImages[j].id[8];
    }
  }

  /** In the catalogue, looking a service up by its own id finds it. */
  lemma FindCatalogueService(k: int)
    requires 0 <= k < |Services|
    ensures Find(Services, ServiceId, Services[k].id) == Some(Services[k])
  {
    ServiceIdsDistinct();
    FindDistinct(Services, ServiceId, k);
  }

  /** All catalogue prices and all service durations are positive integers. */
  lemma CataloguePositive()
    ensures forall s :: s in Services ==> s.price > 0 && s.duration > 0
    ensures forall p :: p in Products ==> p.price > 0
  {
  }

  /** The home page features `services.slice(0, 3)`: always three services. */
  lemma FeaturedServicesAreThree()
    ensures |Services| == 6 && |Services[..3]| == 3
  {
  }
}
